/** The supplier and purchase-order list page (src/pages/Suppliers.tsx):
    the status badge of a purchase order, its label, and the rating and
    lead-time cells of a supplier row. */
module SuppliersPage {
  import opened Common
  import opened Ascii
  import opened Decimal

  /** The statuses a purchase order can have (src/services/supplierService.ts). */
  datatype OrderStatus = Draft | Pending | Approved | Ordered | PartiallyReceived | Received | Cancelled

  /** The wire name of a status. */
  function StatusName(s: OrderStatus): string {
    match s
    case Draft => "draft"
    case Pending => "pending"
    case Approved => "approved"
    case Ordered => "ordered"
    case PartiallyReceived => "partially_received"
    case Received => "received"
    case Cancelled => "cancelled"
  }

  const Gray := "text-gray-600 bg-gray-100"

  /** `getStatusColor`: one badge class per status name, gray for any other
      text. */
  function StatusColor(status: string): string {
    if status == "draft" then Gray
    else if status == "pending" then "text-yellow-600 bg-yellow-100"
    else if status == "approved" then "text-blue-600 bg-blue-100"
    else if status == "ordered" then "text-indigo-600 bg-indigo-100"
    else if status == "partially_received" then "text-orange-600 bg-orange-100"
    else if status == "received" then "text-green-600 bg-green-100"
    else if status == "cancelled" then "text-red-600 bg-red-100"
    else Gray
  }

  /** Gray marks a draft and every text that is not a status name; each of
      the other six statuses has a class of its own. */
  lemma StatusColorGrayIff(status: string)
    ensures StatusColor(status) == Gray <==> status == "draft" || forall s :: StatusName(s) != status
  {
    if forall s :: StatusName(s) != status {
      assert StatusName(Pending) != status && StatusName(Approved) != status;
      assert StatusName(Ordered) != status && StatusName(PartiallyReceived) != status;
      assert StatusName(Received) != status && StatusName(Cancelled) != status;
    } else if status != "draft" {
      var s :| StatusName(s) == status;
    }
  }

  /** The seven order statuses get seven different classes: draft's gray is
      shared only with unknown texts. */
  lemma StatusColorsDistinct(a: OrderStatus, b: OrderStatus)
    requires a != b
    ensures StatusColor(StatusName(a)) != StatusColor(StatusName(b))
  {
  }

  /** The position of the first `c` in `s`, `|s|` when there is none. */
  function IndexOf(s: string, c: char): (k: nat)
    ensures k <= |s|
    ensures k < |s| ==> s[k] == c
    ensures forall j :: 0 <= j < k ==> s[j] != c
  {
    if s == [] then 0
    else if s[0] == c then 0
    else 1 + IndexOf(s[1..], c)
  }

  /** `s.replace(from, to)` with a one-character string pattern: only the
      first occurrence is replaced. */
  function ReplaceFirst(s: string, from: char, to: char): (r: string)
    ensures |r| == |s|
    ensures from !in s ==> r == s
    ensures from in s ==> forall i :: 0 <= i < |s| ==> r[i] == if i == IndexOf(s, from) then to else s[i]
  {
    var k := IndexOf(s, from);
    if k == |s| then s else s[k := to]
  }

  /** Where the regex `\b\w` matches: a word character at the start of the
      text or after a non-word character. */
  predicate WordStart(s: string, i: int)
    requires 0 <= i < |s|
  {
    IsWordChar(s[i]) && (i == 0 || !IsWordChar(s[i - 1]))
  }

  /** The character the regex replacement leaves at position `i`. */
  function CapAt(s: string, i: int): char
    requires 0 <= i < |s|
  {
    if WordStart(s, i) then Upper(s[i]) else s[i]
  }

  /** `.replace(/\b\w/g, l => l.toUpperCase())`. */
  function CapitalizeWords(s: string): (r: string)
    ensures |r| == |s|
    ensures forall i :: 0 <= i < |s| ==> r[i] == CapAt(s, i)
  {
    seq(|s|, i requires 0 <= i < |s| => CapAt(s, i))
  }

  /** Upper-casing keeps a character's class. */
  lemma UpperKeepsClass(c: char)
    ensures IsWordChar(Upper(c)) <==> IsWordChar(c)
    ensures Upper(Upper(c)) == Upper(c)
  {
  }

  /** Capitalising twice is capitalising once: the word starts do not move. */
  lemma CapitalizeIdempotent(s: string)
    ensures CapitalizeWords(CapitalizeWords(s)) == CapitalizeWords(s)
  {
    var r := CapitalizeWords(s);
    var rr := CapitalizeWords(r);
    forall i | 0 <= i < |s| ensures rr[i] == r[i] {
      UpperKeepsClass(s[i]);
      if i > 0 { UpperKeepsClass(s[i - 1]); }
      assert WordStart(r, i) <==> WordStart(s, i);
      assert rr[i] == CapAt(r, i);
    }
  }

  /** `getStatusText`. */
  function StatusText(status: string): (r: string)
    ensures |r| == |status|
  {
    CapitalizeWords(ReplaceFirst(status, '_', ' '))
  }

  /** A status name without underscore is only capitalised. */
  lemma NoUnderscoreOnlyCapitalized(status: string)
    requires '_' !in status
    ensures StatusText(status) == CapitalizeWords(status)
  {
    assert IndexOf(status, '_') == |status|;
  }

  /** Lower-case letters only, checked letter by letter. */
  predicate AllLower(w: string) {
    w == [] || ('a' <= w[0] <= 'z' && AllLower(w[1..]))
  }

  lemma {:induction false} AllLowerLetters(w: string)
    requires AllLower(w)
    ensures forall i :: 0 <= i < |w| ==> 'a' <= w[i] <= 'z'
  {
    if w != [] {
      AllLowerLetters(w[1..]);
      assert forall i :: 1 <= i < |w| ==> w[i] == w[1..][i - 1];
    }
  }

  /** Capitalising a lower-case word upper-cases its first letter only. */
  lemma CapitalizeLowerWord(w: string)
    requires |w| >= 1 && AllLower(w)
    ensures CapitalizeWords(w) == [Upper(w[0])] + w[1..]
  {
    AllLowerLetters(w);
    var r := CapitalizeWords(w);
    var want := [Upper(w[0])] + w[1..];
    forall i | 1 <= i < |w| ensures r[i] == want[i] {
      assert IsWordChar(w[i - 1]);
    }
  }

  /** Whether a position starts a word depends on that character and the
      one before it only. */
  lemma CapAtShifted(s: string, i: int, t: string, j: int)
    requires 0 <= i < |s| && 0 <= j < |t| && s[i] == t[j]
    requires (i == 0 || !IsWordChar(s[i - 1])) <==> (j == 0 || !IsWordChar(t[j - 1]))
    ensures CapAt(s, i) == CapAt(t, j)
  {
  }

  /** A non-word character separates the words on its two sides. */
  lemma CapitalizeAround(x: string, c: char, y: string)
    requires !IsWordChar(c)
    ensures CapitalizeWords(x + [c] + y) == CapitalizeWords(x) + [c] + CapitalizeWords(y)
  {
    var s := x + [c] + y;
    var r := CapitalizeWords(s);
    var want := CapitalizeWords(x) + [c] + CapitalizeWords(y);
    forall i | 0 <= i < |x| ensures r[i] == want[i] {
      if i > 0 { assert s[i - 1] == x[i - 1]; }
      CapAtShifted(s, i, x, i);
    }
    assert r[|x|] == want[|x|];
    forall i | |x| < i < |s| ensures r[i] == want[i] {
      var j := i - |x| - 1;
      if j > 0 { assert s[i - 1] == y[j - 1]; }
      CapAtShifted(s, i, y, j);
    }
  }

  /** A lower-case word is shown with a capital initial. */
  lemma LowerWordCapitalized(w: string)
    requires |w| >= 1 && AllLower(w)
    ensures StatusText(w) == [Upper(w[0])] + w[1..]
  {
    AllLowerLetters(w);
    NoUnderscoreOnlyCapitalized(w);
    CapitalizeLowerWord(w);
  }

  /** The first underscore, after a piece with none, becomes the space. */
  lemma FirstUnderscoreSpaced(a: string, b: string)
    requires '_' !in a
    ensures ReplaceFirst(a + "_" + b, '_', ' ') == a + " " + b
  {
    var n := a + "_" + b;
    assert n[|a|] == '_';
    assert forall j :: 0 <= j < |a| ==> n[j] == a[j];
    assert IndexOf(n, '_') == |a|;
  }

  /** Two lower-case words joined by an underscore are shown as two
      capitalised words, e.g. 'partially_received' as 'Partially Received'. */
  lemma TwoLowerWords(a: string, b: string)
    requires |a| >= 1 && AllLower(a) && |b| >= 1 && AllLower(b)
    ensures StatusText(a + "_" + b) == [Upper(a[0])] + a[1..] + " " + [Upper(b[0])] + b[1..]
  {
    assert '_' !in a by { AllLowerLetters(a); }
    FirstUnderscoreSpaced(a, b);
    CapitalizeAround(a, ' ', b);
    CapitalizeLowerWord(a);
    CapitalizeLowerWord(b);
  }

  /** The one two-word status: 'partially_received' is shown as
      'Partially Received'. The other six are single lower-case words, shown
      with a capital initial (`LowerWordCapitalized`). */
  lemma PartiallyReceivedLabel()
    ensures StatusText("partially" + "_" + "received") == [Upper('p')] + "artially" + " " + [Upper('r')] + "eceived"
  {
    TwoLowerWords("partially", "received");
  }

  /** Only the first underscore becomes a space: a status with at most one
      underscore shows none, and one with two keeps the second. */
  lemma UnderscoresShown(status: string)
    ensures (forall i, j :: 0 <= i < j < |status| ==> status[i] != '_' || status[j] != '_')
            ==> '_' !in StatusText(status)
    ensures forall i, j :: (0 <= i < j < |status| && status[i] == '_' && status[j] == '_')
                          ==> StatusText(status)[j] == '_'
  {
    var spaced := ReplaceFirst(status, '_', ' ');
    var r := StatusText(status);
    var k := IndexOf(status, '_');
    forall i | 0 <= i < |r| && r[i] == '_' ensures spaced[i] == '_' {
    }
    if k < |status| {
      forall j | k < j < |status| && status[j] == '_' ensures r[j] == '_' {
        assert spaced[j] == '_';
      }
    }
  }

  /** The rating cell: 'No rating' for a missing or zero rating, otherwise
      five stars, of which the first ones are filled, and the caption
      `(rating/5)`. */
  datatype RatingCell = NoRating | Stars(filled: seq<bool>, caption: string)

  function Rating(rating: Option<int>): (r: RatingCell)
    ensures r.NoRating? <==> rating.None? || rating.value == 0
    ensures r.Stars? ==> |r.filled| == 5
    ensures r.Stars? ==> forall i :: 0 <= i < 5 ==> (r.filled[i] <==> i < rating.value)
    ensures r.Stars? ==> r.caption == "(" + IntToString(rating.value) + "/5)"
  {
    if rating.None? || rating.value == 0 then NoRating
    else Stars(seq(5, i => i < rating.value), "(" + IntToString(rating.value) + "/5)")
  }

  /** The number of filled stars. */
  function CountFilled(stars: seq<bool>): (n: nat)
    ensures n <= |stars|
  {
    if stars == [] then 0 else (if stars[0] then 1 else 0) + CountFilled(stars[1..])
  }

  /** The filled stars come first. */
  lemma {:induction false} PrefixCount(stars: seq<bool>, k: nat)
    requires k <= |stars|
    requires forall i :: 0 <= i < |stars| ==> (stars[i] <==> i < k)
    ensures CountFilled(stars) == k
  {
    if stars != [] {
      var tail := stars[1..];
      if k > 0 {
        assert forall i :: 0 <= i < |tail| ==> (tail[i] <==> i < k - 1) by {
          forall i | 0 <= i < |tail| ensures tail[i] <==> i < k - 1 { assert tail[i] == stars[i + 1]; }
        }
        PrefixCount(tail, k - 1);
      } else {
        assert forall i :: 0 <= i < |tail| ==> (tail[i] <==> i < 0) by {
          forall i | 0 <= i < |tail| ensures tail[i] <==> i < 0 { assert tail[i] == stars[i + 1]; }
        }
        PrefixCount(tail, 0);
      }
    }
  }

  /** A rated supplier shows its rating, capped to 0..5, as filled stars. */
  lemma FilledStarsIsRating(rating: int)
    requires rating != 0
    ensures Rating(Some(rating)).Stars?
    ensures CountFilled(Rating(Some(rating)).filled) == if rating < 0 then 0 else if rating > 5 then 5 else rating
  {
    var stars := Rating(Some(rating)).filled;
    var k := if rating < 0 then 0 else if rating > 5 then 5 else rating;
    PrefixCount(stars, k);
  }

  /** `supplier.leadTime ? `${supplier.leadTime} days` : '-'`. */
  function LeadTime(days: Option<int>): (r: string)
    ensures r == "-" <==> days.None? || days.value == 0
    ensures r != "-" ==> r == IntToString(days.value) + " days"
  {
    if days.None? || days.value == 0 then "-" else IntToString(days.value) + " days"
  }

  /** Different lead times are shown differently. */
  lemma LeadTimeShowsDays(a: int, b: int)
    requires a != 0 && b != 0 && LeadTime(Some(a)) == LeadTime(Some(b))
    ensures a == b
  {
    var sa, sb := IntToString(a), IntToString(b);
    assert sa == (sa + " days")[..|sa|];
    assert |sa + " days"| == |sb + " days"|;
    assert sb == (sb + " days")[..|sb|];
    IntToStringInjective(a, b);
  }
}
