/**
 * The compact encoding of a batch of metric values. The one example the
 * repository pins down, [3,5,2,5,0,3,4,3,1] written as "0,1,2,3:3,4,5:2",
 * is read as this rule: sort the values ascending, write each distinct
 * value once, follow it by ":n" when it occurs n > 1 times, and join the
 * pieces with ','.
 */
module Batch {
  import opened Wrappers
  import opened Text
  import opened Decimal

  predicate Sorted(s: seq<int>)
  {
    forall i, j :: 0 <= i < j < |s| ==> s[i] <= s[j]
  }

  /** Inserts x before the first element not smaller than it. */
  function Insert(x: int, s: seq<int>): (r: seq<int>)
    ensures |r| == |s| + 1 && (r[0] == x || (|s| > 0 && r[0] == s[0]))
  {
    if |s| == 0 || x <= s[0] then [x] + s else [s[0]] + Insert(x, s[1..])
  }

  /** Inserting adds exactly one copy of x and drops nothing. */
  lemma {:induction false} InsertMultiset(x: int, s: seq<int>)
    ensures multiset(Insert(x, s)) == multiset(s) + multiset{x}
  {
    if |s| > 0 && x > s[0] {
      InsertMultiset(x, s[1..]);
      assert s == [s[0]] + s[1..];
      assert Insert(x, s) == [s[0]] + Insert(x, s[1..]);
    }
  }

  /** A bound below x and below every element of s is below every element of the result. */
  lemma {:induction false} InsertAbove(x: int, s: seq<int>, b: int)
    requires b <= x && forall k :: 0 <= k < |s| ==> b <= s[k]
    ensures forall k :: 0 <= k < |Insert(x, s)| ==> b <= Insert(x, s)[k]
  {
    if |s| > 0 && x > s[0] {
      InsertAbove(x, s[1..], b);
      assert Insert(x, s) == [s[0]] + Insert(x, s[1..]);
    }
  }

  /** Inserting into a sorted sequence keeps it sorted. */
  lemma {:induction false} InsertSorted(x: int, s: seq<int>)
    requires Sorted(s)
    ensures Sorted(Insert(x, s))
  {
    if |s| > 0 && x > s[0] {
      var t := Insert(x, s[1..]);
      InsertSorted(x, s[1..]);
      InsertAbove(x, s[1..], s[0]);
      assert Insert(x, s) == [s[0]] + t;
    }
  }

  /** The values in ascending order. */
  function Sort(s: seq<int>): (r: seq<int>)
    ensures Sorted(r) && multiset(r) == multiset(s)
  {
    if |s| == 0 then []
    else
      assert s == [s[0]] + s[1..];
      InsertSorted(s[0], Sort(s[1..]));
      InsertMultiset(s[0], Sort(s[1..]));
      Insert(s[0], Sort(s[1..]))
  }

  /** The first element of a sorted sequence is no larger than any of its values. */
  lemma HeadIsLeast(a: seq<int>, x: int)
    requires Sorted(a) && x in multiset(a)
    ensures |a| > 0 && a[0] <= x
  {
    assert x in a;
    var j :| 0 <= j < |a| && a[j] == x;
  }

  lemma TailMultiset(a: seq<int>)
    requires |a| > 0
    ensures multiset(a[1..]) == multiset(a) - multiset{a[0]}
  {
    assert a == [a[0]] + a[1..];
  }

  lemma TailSorted(a: seq<int>)
    requires Sorted(a) && |a| > 0
    ensures Sorted(a[1..])
  {
  }

  /** Two sorted sequences holding the same values are the same sequence. */
  lemma SameHead(a: seq<int>, b: seq<int>)
    requires Sorted(a) && Sorted(b) && multiset(a) == multiset(b) && |a| > 0
    ensures |b| > 0 && a[0] == b[0]
  {
    assert a[0] in multiset(a);
    HeadIsLeast(b, a[0]);
    assert b[0] in multiset(b);
    HeadIsLeast(a, b[0]);
  }

  lemma {:induction false} SortedUnique(a: seq<int>, b: seq<int>)
    requires Sorted(a) && Sorted(b) && multiset(a) == multiset(b)
    ensures a == b
    decreases |a|
  {
    if |a| == 0 {
      assert |b| == |multiset(b)|;
    } else {
      SameHead(a, b);
      TailMultiset(a);
      TailMultiset(b);
      TailSorted(a);
      TailSorted(b);
      SortedUnique(a[1..], b[1..]);
      assert a == [a[0]] + a[1..];
      assert b == [b[0]] + b[1..];
    }
  }

  /** A value together with how many times it occurs. */
  datatype Run = Run(value: int, count: nat)

  function Repeat(x: int, n: nat): (r: seq<int>)
    ensures |r| == n && forall k :: 0 <= k < n ==> r[k] == x
  {
    if n == 0 then [] else [x] + Repeat(x, n - 1)
  }

  /** How many elements at the front of s are equal to x. */
  function CountLeading(x: int, s: seq<int>): (n: nat)
    ensures n <= |s|
    ensures forall k :: 0 <= k < n ==> s[k] == x
    ensures n < |s| ==> s[n] != x
  {
    if |s| > 0 && s[0] == x then 1 + CountLeading(x, s[1..]) else 0
  }

  /** The maximal blocks of equal neighbouring values, in order. */
  function Runs(s: seq<int>): (r: seq<Run>)
    ensures forall i :: 0 <= i < |r| ==> r[i].count >= 1
    ensures |r| == 0 <==> |s| == 0
    decreases |s|
  {
    if |s| == 0 then []
    else
      var n := CountLeading(s[0], s);
      [Run(s[0], n)] + Runs(s[n..])
  }

  /** Writes every run out as its copies again. */
  function Expand(runs: seq<Run>): seq<int>
  {
    if |runs| == 0 then [] else Repeat(runs[0].value, runs[0].count) + Expand(runs[1..])
  }

  lemma RepeatOf(s: seq<int>, x: int)
    requires forall k :: 0 <= k < |s| ==> s[k] == x
    ensures s == Repeat(x, |s|)
  {
  }

  /** Expanding the runs of s gives s back. */
  lemma {:induction false} ExpandRuns(s: seq<int>)
    ensures Expand(Runs(s)) == s
    decreases |s|
  {
    if |s| > 0 {
      var n := CountLeading(s[0], s);
      ExpandRuns(s[n..]);
      RepeatOf(s[..n], s[0]);
      assert s == s[..n] + s[n..];
    }
  }

  /** In a sorted sequence the runs have strictly ascending values: each value appears once. */
  lemma {:induction false} RunsAscending(s: seq<int>)
    requires Sorted(s)
    ensures forall i, j :: 0 <= i < j < |Runs(s)| ==> Runs(s)[i].value < Runs(s)[j].value
    decreases |s|
  {
    if |s| > 0 {
      var n := CountLeading(s[0], s);
      var rest := s[n..];
      RunsAscending(rest);
      RunsBelow(rest, s[0]);
    }
  }

  lemma {:induction false} RunsBelow(s: seq<int>, x: int)
    requires forall k :: 0 <= k < |s| ==> x < s[k]
    ensures forall i :: 0 <= i < |Runs(s)| ==> x < Runs(s)[i].value
    decreases |s|
  {
    if |s| > 0 {
      var n := CountLeading(s[0], s);
      RunsBelow(s[n..], x);
    }
  }

  /** When s starts with exactly n copies of its first value, that block is its first run. */
  lemma RunsHead(s: seq<int>, n: nat)
    requires 0 < n <= |s| && forall k :: 0 <= k < n ==> s[k] == s[0]
    requires n < |s| ==> s[n] != s[0]
    ensures Runs(s) == [Run(s[0], n)] + Runs(s[n..])
  {
    assert CountLeading(s[0], s) == n;
  }

  /** One run as written on the wire: "v" for a single value, "v:n" for n copies. */
  function RenderRun(r: Run): string
  {
    IntToString(r.value) + (if r.count > 1 then ":" + NatToString(r.count) else "")
  }

  function Render(runs: seq<Run>): (r: seq<string>)
    ensures |r| == |runs| && forall i :: 0 <= i < |r| ==> r[i] == RenderRun(runs[i])
  {
    if |runs| == 0 then []
    else
      var rest := Render(runs[1..]);
      assert forall i :: 1 <= i < |runs| ==> rest[i - 1] == RenderRun(runs[i]);
      [RenderRun(runs[0])] + rest
  }

  /** The compact encoding of a batch of values. */
  function Compact(values: seq<int>): string
  {
    Join(Render(Runs(Sort(values))), ',')
  }

  function Decimals(values: seq<int>): (r: seq<string>)
    ensures |r| == |values| && forall i :: 0 <= i < |r| ==> r[i] == IntToString(values[i])
  {
    if |values| == 0 then [] else [IntToString(values[0])] + Decimals(values[1..])
  }

  /** The plain listing that the compact encoding is measured against. */
  function Plain(values: seq<int>): string
  {
    Join(Decimals(values), ',')
  }

  /** The encoding depends on the values and their counts only, not on their order. */
  lemma CompactOrderFree(a: seq<int>, b: seq<int>)
    requires multiset(a) == multiset(b)
    ensures Compact(a) == Compact(b)
  {
    SortedUnique(Sort(a), Sort(b));
  }

  // ----- compactness -----

  lemma {:induction false} DecimalsAppend(a: seq<int>, b: seq<int>)
    ensures Decimals(a + b) == Decimals(a) + Decimals(b)
  {
    if |a| > 0 {
      assert (a + b)[1..] == a[1..] + b;
      DecimalsAppend(a[1..], b);
    } else {
      assert a + b == b;
    }
  }

  lemma {:induction false} InsertCost(x: int, s: seq<int>)
    ensures Cost(Decimals(Insert(x, s))) == Cost(Decimals(s)) + |IntToString(x)| + 1
  {
    if |s| > 0 && x > s[0] {
      InsertCost(x, s[1..]);
    }
  }

  /** Reordering leaves the plain listing's length unchanged. */
  lemma {:induction false} SortCost(s: seq<int>)
    ensures Cost(Decimals(Sort(s))) == Cost(Decimals(s))
  {
    if |s| > 0 {
      SortCost(s[1..]);
      InsertCost(s[0], Sort(s[1..]));
    }
  }

  lemma {:induction false} RepeatCost(x: int, n: nat)
    requires n >= 1
    ensures Cost(Decimals(Repeat(x, n))) >= |IntToString(x)| + 1 + 2 * (n - 1)
  {
    if n > 1 {
      RepeatCost(x, n - 1);
    }
  }

  /** A run is never written longer than its copies listed one by one. */
  lemma RunCost(x: int, n: nat)
    requires n >= 1
    ensures |RenderRun(Run(x, n))| + 1 <= Cost(Decimals(Repeat(x, n)))
  {
    RepeatCost(x, n);
    if n > 1 {
      NatToStringShort(n);
    } else {
      assert Repeat(x, 1) == [x];
    }
  }

  lemma RunsCostUnfold(s: seq<int>)
    requires |s| > 0
    ensures var n := CountLeading(s[0], s);
      Cost(Render(Runs(s))) == |RenderRun(Run(s[0], n))| + 1 + Cost(Render(Runs(s[n..])))
  {
    var n := CountLeading(s[0], s);
    var runs := Runs(s);
    assert runs == [Run(s[0], n)] + Runs(s[n..]);
    assert runs[1..] == Runs(s[n..]);
    assert Render(runs)[1..] == Render(Runs(s[n..]));
  }

  lemma DecimalsCostSplit(s: seq<int>, n: nat)
    requires n <= |s|
    ensures Cost(Decimals(s)) == Cost(Decimals(s[..n])) + Cost(Decimals(s[n..]))
  {
    assert s == s[..n] + s[n..];
    DecimalsAppend(s[..n], s[n..]);
    CostAppend(Decimals(s[..n]), Decimals(s[n..]));
  }

  lemma {:induction false} RunsCost(s: seq<int>)
    ensures Cost(Render(Runs(s))) <= Cost(Decimals(s))
    decreases |s|
  {
    if |s| > 0 {
      var n := CountLeading(s[0], s);
      RunsCostUnfold(s);
      RunsCost(s[n..]);
      RunCost(s[0], n);
      RepeatOf(s[..n], s[0]);
      DecimalsCostSplit(s, n);
    }
  }

  /** The compact encoding is never longer than the plain comma-joined listing. */
  lemma CompactNoLonger(values: seq<int>)
    ensures |Compact(values)| <= |Plain(values)|
  {
    var runs := Runs(Sort(values));
    RunsCost(Sort(values));
    SortCost(values);
    JoinLength(Render(runs), ',');
    JoinLength(Decimals(values), ',');
  }

  lemma RunAscii(r: Run)
    ensures IsAscii(RenderRun(r))
  {
    IntToStringNumeral(r.value);
    if r.count > 1 {
      assert AllDigits(NatToString(r.count));
    }
  }

  /** The compact encoding is plain ASCII: digits, '-', ',' and ':'. */
  lemma CompactAscii(values: seq<int>)
    ensures IsAscii(Compact(values))
  {
    var runs := Runs(Sort(values));
    var pieces := Render(runs);
    forall i | 0 <= i < |pieces| ensures IsAscii(pieces[i]) {
      RunAscii(runs[i]);
    }
    JoinAscii(pieces, ',');
  }

  lemma {:induction false} JoinAscii(parts: seq<string>, sep: char)
    requires sep as int < 0x80
    requires forall i :: 0 <= i < |parts| ==> IsAscii(parts[i])
    ensures IsAscii(Join(parts, sep))
  {
    if |parts| > 1 {
      JoinAscii(parts[1..], sep);
      assert Join(parts, sep) == parts[0] + [sep] + Join(parts[1..], sep);
    }
  }

  // ----- decoding -----

  /** Reads one piece "v" or "v:n" back into a run. */
  function DecodeRun(piece: string): Option<Run>
  {
    var parts := Split(piece, ':');
    if |parts| == 1 then
      match ParseInt(parts[0])
      case Some(v) => Some(Run(v, 1))
      case None => None
    else if |parts| == 2 then
      match (ParseInt(parts[0]), ParseNat(parts[1]))
      case (Some(v), Some(n)) => if n >= 1 then Some(Run(v, n)) else None
      case _ => None
    else None
  }

  function DecodeRuns(pieces: seq<string>): Option<seq<Run>>
  {
    if |pieces| == 0 then Some([])
    else
      match (DecodeRun(pieces[0]), DecodeRuns(pieces[1..]))
      case (Some(r), Some(rest)) => Some([r] + rest)
      case _ => None
  }

  /** Reads a compact encoding back into the sorted values it stands for. */
  function DecodeCompact(s: string): Option<seq<int>>
  {
    if s == "" then Some([])
    else
      match DecodeRuns(Split(s, ','))
      case Some(runs) => Some(Expand(runs))
      case None => None
  }

  lemma NoSeparatorInInt(i: int, sep: char)
    requires sep == ',' || sep == ':'
    ensures sep !in IntToString(i)
  {
    IntToStringNumeral(i);
  }

  lemma DecodeRenderRun(r: Run)
    requires r.count >= 1
    ensures ',' !in RenderRun(r) && DecodeRun(RenderRun(r)) == Some(r)
  {
    var v := IntToString(r.value);
    NoSeparatorInInt(r.value, ',');
    NoSeparatorInInt(r.value, ':');
    ParseIntToString(r.value);
    if r.count > 1 {
      var c := NatToString(r.count);
      assert ',' !in c && ':' !in c by {
        assert forall k :: 0 <= k < |c| ==> IsDigit(c[k]);
      }
      assert RenderRun(r) == Join([v, c], ':');
      SplitJoin([v, c], ':');
      ParseNatToString(r.count);
    } else {
      assert RenderRun(r) == Join([v], ':');
      SplitJoin([v], ':');
    }
  }

  lemma {:induction false} DecodeRender(runs: seq<Run>)
    requires forall i :: 0 <= i < |runs| ==> runs[i].count >= 1
    ensures DecodeRuns(Render(runs)) == Some(runs)
  {
    if |runs| > 0 {
      DecodeRenderRun(runs[0]);
      DecodeRender(runs[1..]);
      assert Render(runs)[1..] == Render(runs[1..]);
      assert [runs[0]] + runs[1..] == runs;
    }
  }

  /** Decoding a compact encoding recovers every value with its count, in ascending order. */
  lemma DecodeCompactRoundTrip(values: seq<int>)
    ensures DecodeCompact(Compact(values)) == Some(Sort(values))
  {
    var runs := Runs(Sort(values));
    var pieces := Render(runs);
    ExpandRuns(Sort(values));
    if |values| > 0 {
      forall i | 0 <= i < |pieces| ensures ',' !in pieces[i] {
        DecodeRenderRun(runs[i]);
      }
      SplitJoin(pieces, ',');
      DecodeRender(runs);
      JoinLength(pieces, ',');
      assert Cost(pieces) >= 2;
    } else {
      assert Sort(values) == [];
    }
  }
}
