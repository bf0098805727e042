/**
 * src/Pages/Dashbaord/Transaction/components/transaction-components.tsx:
 * the status badge's case-insensitive status-to-colour lookup and the
 * detail row's loading switch.
 */
module TransactionComponents {
  import opened Js

  const GreenClass := "bg-green-100 text-green-800"
  const RedClass := "bg-red-100 text-red-800"
  const YellowClass := "bg-yellow-100 text-yellow-800"
  const GrayClass := "bg-gray-100 text-gray-800"

  /** The colour class chosen by the `switch` on the lower-cased status, gray when no case matches. */
  function BadgeClass(status: string): (c: string)
    ensures c in {GreenClass, RedClass, YellowClass, GrayClass}
    ensures c == GrayClass <==> ToLower(status) !in {"success", "failed", "pending"}
  {
    var lower := ToLower(status);
    if lower == "success" then GreenClass
    else if lower == "failed" then RedClass
    else if lower == "pending" then YellowClass
    else GrayClass
  }

  /** The rendered badge: the colour class and the status text as given. */
  datatype Badge = Badge(colorClass: string, text: string)

  function StatusBadge(status: string): (b: Badge)
    ensures b.text == status
    ensures b.colorClass == BadgeClass(status)
  {
    Badge(BadgeClass(status), status)
  }

  /** `c` is the lower-case letter `l` or its upper-case form. */
  predicate SameLetter(c: char, l: char) {
    c == l || (IsAsciiLower(l) && c as int == l as int - 32)
  }

  /** Letter by letter, `s` spells the lower-case word `w` in any mix of cases. */
  predicate SpellsIgnoringCase(s: string, w: string) {
    |s| == |w| && forall i :: 0 <= i < |s| ==> SameLetter(s[i], w[i])
  }

  /** Lower-casing gives a word of lower-case letters exactly when the input spells it in any mix of cases. */
  lemma LowerEqualsWord(s: string, w: string)
    requires forall i :: 0 <= i < |w| ==> IsAsciiLower(w[i])
    ensures ToLower(s) == w <==> SpellsIgnoringCase(s, w)
  {
    if ToLower(s) == w {
      forall i | 0 <= i < |s| ensures SameLetter(s[i], w[i]) {
        assert LowerChar(s[i]) == w[i];
      }
    }
    if SpellsIgnoringCase(s, w) {
      forall i | 0 <= i < |s| ensures ToLower(s)[i] == w[i] {
        assert SameLetter(s[i], w[i]);
      }
    }
  }

  /** The three coloured classes each belong to exactly one status word, in any mix of cases. */
  lemma BadgeColours(status: string)
    ensures BadgeClass(status) == GreenClass <==> SpellsIgnoringCase(status, "success")
    ensures BadgeClass(status) == RedClass <==> SpellsIgnoringCase(status, "failed")
    ensures BadgeClass(status) == YellowClass <==> SpellsIgnoringCase(status, "pending")
  {
    LowerEqualsWord(status, "success");
    LowerEqualsWord(status, "failed");
    LowerEqualsWord(status, "pending");
  }

  /** What the value cell of a detail row shows. */
  datatype Cell = Skeleton | Value(text: string)

  /** `DetailItem`'s value cell: a skeleton instead of the value exactly while loading. */
  function DetailCell(value: string, loading: bool): (c: Cell)
    ensures c.Skeleton? <==> loading
    ensures !loading ==> c.text == value
  {
    if loading then Skeleton else Value(value)
  }
}
