/**
 Redis stream entry ids: printing `generation-seq` and reading it back.
 Printing is Rust's decimal formatting of a u64, reading is `split_once('-')` followed by
 `u64::from_str` on both halves (which also accepts one leading plus sign and leading zeros).
 */
module EntryIds {
  import opened Wrappers

  datatype EntryId = EntryId(millis: u64, sequence: u64) {
    /** The derived lexicographic order. */
    predicate Less(other: EntryId) {
      millis < other.millis || (millis == other.millis && sequence < other.sequence)
    }

    predicate AtMost(other: EntryId) {
      this == other || Less(other)
    }
  }

  function DigitChar(d: nat): char
    requires d < 10
  {
    '0' + d as char
  }

  function DigitValue(c: char): Option<nat> {
    if '0' <= c <= '9' then Some(c as nat - '0' as nat) else None
  }

  /** `format!("{n}")`. */
  function Decimal(n: nat): string {
    if n < 10 then [DigitChar(n)] else Decimal(n / 10) + [DigitChar(n % 10)]
  }

  function DigitsValue(s: string): Option<nat> {
    if s == [] then Some(0)
    else
      match (DigitsValue(s[..|s| - 1]), DigitValue(s[|s| - 1]))
      case (Some(high), Some(low)) => Some(10 * high + low)
      case _ => None
  }

  /** `u64::from_str`. */
  function ParseU64(s: string): Option<u64> {
    var digits := if |s| > 1 && s[0] == '+' then s[1..] else s;
    if digits == [] then None
    else
      match DigitsValue(digits)
      case Some(n) => if n <= U64_MAX then Some(n) else None
      case None => None
  }

  /** `str::split_once('-')`, from position `i` on. */
  function DashFrom(s: string, i: nat): Option<nat>
    requires i <= |s|
    ensures DashFrom(s, i).Some? ==> i <= DashFrom(s, i).value < |s|
    decreases |s| - i
  {
    if i == |s| then None
    else if s[i] == '-' then Some(i)
    else DashFrom(s, i + 1)
  }

  function ParseEntryId(s: string): Option<EntryId> {
    match DashFrom(s, 0)
    case None => None
    case Some(dash) =>
      match (ParseU64(s[..dash]), ParseU64(s[dash + 1..]))
      case (Some(millis), Some(sequence)) => Some(EntryId(millis, sequence))
      case _ => None
  }

  function PrintEntryId(generation: u64, seqNo: u64): string {
    Decimal(generation) + "-" + Decimal(seqNo)
  }

  lemma {:induction false} DecimalReads(n: nat)
    ensures DigitsValue(Decimal(n)) == Some(n)
    ensures Decimal(n) != []
    ensures forall i :: 0 <= i < |Decimal(n)| ==> '0' <= Decimal(n)[i] <= '9'
  {
    if n < 10 {
      var s := Decimal(n);
      assert s[..0] == [];
    } else {
      DecimalReads(n / 10);
      var s := Decimal(n);
      assert s[..|s| - 1] == Decimal(n / 10);
    }
  }

  lemma {:induction false} DashAfterDigits(s: string, dash: nat, i: nat)
    requires i <= dash < |s| && s[dash] == '-'
    requires forall j :: i <= j < dash ==> s[j] != '-'
    ensures DashFrom(s, i) == Some(dash)
    decreases dash - i
  {
    if i < dash {
      DashAfterDigits(s, dash, i + 1);
    }
  }

  /** Every printed id reads back as exactly the pair that was printed. */
  lemma PrintedIdReadsBack(generation: u64, seqNo: u64)
    ensures ParseEntryId(PrintEntryId(generation, seqNo)) == Some(EntryId(generation, seqNo))
  {
    var g, q := Decimal(generation), Decimal(seqNo);
    var s := PrintEntryId(generation, seqNo);
    DecimalReads(generation);
    DecimalReads(seqNo);
    DashAfterDigits(s, |g|, 0);
    assert s[..|g|] == g && s[|g| + 1..] == q;
  }

  /** Printing is injective, so comparing printed ids compares the pairs. */
  lemma PrintedIdsEqual(g1: u64, q1: u64, g2: u64, q2: u64)
    ensures PrintEntryId(g1, q1) == PrintEntryId(g2, q2) <==> (g1 == g2 && q1 == q2)
  {
    PrintedIdReadsBack(g1, q1);
    PrintedIdReadsBack(g2, q2);
  }

  predicate AllDigits(s: string) {
    forall i :: 0 <= i < |s| ==> '0' <= s[i] <= '9'
  }

  lemma {:induction false} DigitsReadable(s: string)
    ensures DigitsValue(s).Some? <==> AllDigits(s)
    decreases |s|
  {
    if s != [] {
      DigitsReadable(s[..|s| - 1]);
      assert forall i :: 0 <= i < |s| - 1 ==> s[..|s| - 1][i] == s[i];
    }
  }

  lemma {:induction false} LeadingZero(s: string)
    requires AllDigits(s)
    ensures DigitsValue("0" + s) == DigitsValue(s)
    decreases |s|
  {
    var t := "0" + s;
    if s == [] {
      assert t[..0] == [];
    } else {
      LeadingZero(s[..|s| - 1]);
      assert t[..|t| - 1] == "0" + s[..|s| - 1];
      DigitsReadable(s[..|s| - 1]);
    }
  }

  /** A half is read exactly when it is digits, after at most one plus sign, of 64-bit value; zeros and the sign change nothing. */
  lemma ReadableHalves(s: string)
    ensures ParseU64(s).Some? ==> s != [] && (AllDigits(s) || (s[0] == '+' && |s| > 1 && AllDigits(s[1..])))
    ensures s != [] && AllDigits(s) ==>
      && DigitsValue(s).Some?
      && ParseU64(s) == (if DigitsValue(s).value <= U64_MAX then Some(DigitsValue(s).value) else None)
      && ParseU64("+" + s) == ParseU64(s)
      && ParseU64("0" + s) == ParseU64(s)
  {
    DigitsReadable(s);
    if s != [] {
      DigitsReadable(s[1..]);
    }
    if s != [] && AllDigits(s) {
      assert ("+" + s)[1..] == s;
      LeadingZero(s);
    }
  }
}
