/**
 * The field rules the sign-up and login forms register with
 * react-hook-form (src/components/signup-form.tsx,
 * src/components/login-form.tsx), each regular expression written out as a
 * string predicate.
 */
module FormRules {
  import opened Wrappers
  import opened Js

  /** `/^[0-9]{10,13}$/`: ten to thirteen ASCII digits and nothing else. */
  predicate IsPhone(s: string) {
    10 <= |s| <= 13 && forall i :: 0 <= i < |s| ==> IsAsciiDigit(s[i])
  }

  /** `[^@\s]`: a character other than `@` and white space. */
  predicate EmailChar(c: char) {
    c != '@' && !IsSpace(c)
  }

  /** `[^@\s]+`: a non-empty run of such characters. */
  predicate EmailPart(s: string) {
    |s| > 0 && forall i :: 0 <= i < |s| ==> EmailChar(s[i])
  }

  /** The `@` at `i` and the `.` at `j` split `s` into the three non-empty runs of `/^[^@\s]+@[^@\s]+\.[^@\s]+$/`. */
  predicate EmailSplitAt(s: string, i: int, j: int) {
    0 < i && i + 1 < j < |s| - 1 && s[i] == '@' && s[j] == '.' &&
    EmailPart(s[..i]) && EmailPart(s[i + 1..j]) && EmailPart(s[j + 1..])
  }

  /** Some `.` after the `@` at `i` completes the split. */
  predicate EmailSplitAfter(s: string, i: int) {
    exists j | i + 1 < j < |s| - 1 :: EmailSplitAt(s, i, j)
  }

  /** `/^[^@\s]+@[^@\s]+\.[^@\s]+$/` */
  predicate IsEmail(s: string) {
    exists i | 0 < i < |s| :: EmailSplitAfter(s, i)
  }

  /** Every local part, host and final label without `@` or white space make an accepted address. */
  lemma EmailFromParts(local: string, host: string, tld: string)
    requires EmailPart(local) && EmailPart(host) && EmailPart(tld)
    ensures IsEmail(local + "@" + host + "." + tld)
  {
    var s := local + "@" + host + "." + tld;
    var i, j := |local|, |local| + 1 + |host|;
    assert s[..i] == local;
    assert s[i + 1..j] == host;
    assert s[j + 1..] == tld;
    assert EmailSplitAt(s, i, j);
    assert EmailSplitAfter(s, i);
  }

  /** Conversely, an accepted address is such a concatenation. */
  lemma EmailParts(s: string) returns (local: string, host: string, tld: string)
    requires IsEmail(s)
    ensures EmailPart(local) && EmailPart(host) && EmailPart(tld)
    ensures s == local + "@" + host + "." + tld
  {
    var i :| 0 < i < |s| && EmailSplitAfter(s, i);
    var j :| i + 1 < j < |s| - 1 && EmailSplitAt(s, i, j);
    local, host, tld := s[..i], s[i + 1..j], s[j + 1..];
    assert s == s[..i] + [s[i]] + s[i + 1..j] + [s[j]] + s[j + 1..];
  }

  /** An accepted address holds exactly one `@`, and no white space. */
  lemma EmailHasOneAt(s: string)
    requires IsEmail(s)
    ensures exists i :: 0 <= i < |s| && s[i] == '@'
    ensures forall i, k :: 0 <= i < |s| && 0 <= k < |s| && s[i] == '@' && s[k] == '@' ==> i == k
    ensures forall k :: 0 <= k < |s| ==> !IsSpace(s[k])
  {
    var i :| 0 < i < |s| && EmailSplitAfter(s, i);
    var j :| i + 1 < j < |s| - 1 && EmailSplitAt(s, i, j);
    forall k | 0 <= k < |s| && k != i
      ensures EmailChar(s[k])
    {
      if k < i { assert s[k] == s[..i][k]; }
      else if k < j { assert s[k] == s[i + 1..j][k - i - 1]; }
      else if k > j { assert s[k] == s[j + 1..][k - j - 1]; }
    }
  }

  /** `minLength`: at least `n` characters. */
  predicate MinLength(s: string, n: nat) {
    |s| >= n
  }
}
