/*
 * The bulk sequence page's script: the counter that numbers sequence
 * configurations, the detection of a `PREFIX[START-END]SUFFIX` range in a
 * prefix, the defaults of each configuration and the 5000 cap on their
 * sum, the range shown above each result, and the CSV and ZIP exports over
 * all result sequences.
 */
module BulkSequence {
  import opened Text
  import opened JsValues

  // ---------------------------------------------------------------------
  // Sequence slots (addNewSequence / removeSequence).

  const MaxSequences: nat := 10
  const MaxMessage: string := "Maximum number of sequences reached (10)"

  predicate Increasing(s: seq<nat>)
  {
    forall i, j :: 0 <= i < j < |s| ==> s[i] < s[j]
  }

  /** A strictly increasing list of numbers from [lo, hi) has fewer than
    * hi - lo + 1 entries. */
  lemma {:induction false} IncreasingBelow(s: seq<nat>, lo: nat, hi: nat)
    requires lo <= hi && Increasing(s)
    requires forall i :: 0 <= i < |s| ==> lo <= s[i] < hi
    ensures |s| <= hi - lo
    decreases |s|
  {
    if s != [] {
      var t := s[1..];
      forall i | 0 <= i < |t| ensures s[0] + 1 <= t[i] < hi {
        assert t[i] == s[i + 1];
      }
      forall i, j | 0 <= i < j < |t| ensures t[i] < t[j] {
        assert t[i] == s[i + 1] && t[j] == s[j + 1];
      }
      IncreasingBelow(t, s[0] + 1, hi);
      assert s[0] >= lo;
    }
  }

  /** The first occurrence of x taken out. */
  function RemoveFirst(s: seq<nat>, x: nat): (r: seq<nat>)
    ensures x !in s ==> r == s
    ensures x in s ==> |r| == |s| - 1
  {
    if s == [] then []
    else if s[0] == x then s[1..]
    else [s[0]] + RemoveFirst(s[1..], x)
  }

  lemma {:induction false} RemoveFirstAt(s: seq<nat>, x: nat, k: nat)
    requires k < |s| && s[k] == x && x !in s[..k]
    ensures RemoveFirst(s, x) == s[..k] + s[k + 1..]
    decreases k
  {
    if k > 0 {
      assert s[0] in s[..k];
      assert s[1..][..k - 1] == s[1..k];
      RemoveFirstAt(s[1..], x, k - 1);
    }
  }

  /** Taking one entry out keeps the list increasing and its entries. */
  lemma SpliceIncreasing(s: seq<nat>, k: nat)
    requires k < |s| && Increasing(s)
    ensures Increasing(s[..k] + s[k + 1..])
    ensures forall x :: x in s[..k] + s[k + 1..] ==> x in s
  {
    var r := s[..k] + s[k + 1..];
    forall i | 0 <= i < |r| ensures r[i] == (if i < k then s[i] else s[i + 1]) {
    }
    forall i, j | 0 <= i < j < |r| ensures r[i] < r[j] {
      assert r[i] == (if i < k then s[i] else s[i + 1]);
      assert r[j] == (if j < k then s[j] else s[j + 1]);
    }
  }

  /** The page's sequence items: `sequenceCount` is the next id and only
    * grows, `items` the ids of the items on the page in order,
    * `addDisabled` the state of the add button, and `issued` every id
    * handed out so far. */
  class SequenceSlots {
    var sequenceCount: nat
    var items: seq<nat>
    var addDisabled: bool
    ghost var issued: set<nat>

    ghost predicate Valid()
      reads this
    {
      sequenceCount >= 1
      && (forall x :: x in issued <==> 1 <= x < sequenceCount)
      && (forall i :: 0 <= i < |items| ==> items[i] in issued)
      && Increasing(items)
    }

    constructor()
      ensures Valid()
      ensures sequenceCount == 1 && items == [] && !addDisabled
    {
      sequenceCount := 1;
      items := [];
      addDisabled := false;
      issued := {};
    }

    /** There are never more items on the page than ids handed out. */
    lemma ItemsWithinCounter()
      requires Valid()
      ensures |items| < sequenceCount
    {
      IncreasingBelow(items, 1, sequenceCount);
    }

    /** addNewSequence as written: refuses once the counter reaches 10,
      * otherwise appends an item with the next id. */
    method AddNewSequence() returns (error: Option<string>)
      requires Valid()
      modifies this
      ensures Valid()
      ensures old(sequenceCount) >= MaxSequences ==>
        error == Some(MaxMessage) && sequenceCount == old(sequenceCount) && items == old(items)
        && addDisabled == old(addDisabled) && issued == old(issued)
      ensures old(sequenceCount) < MaxSequences ==>
        error.None? && sequenceCount == old(sequenceCount) + 1
        && old(sequenceCount) !in old(issued) && issued == old(issued) + {old(sequenceCount)}
        && items == old(items) + [old(sequenceCount)]
        && addDisabled == (old(addDisabled) || |items| >= MaxSequences)
      ensures old(sequenceCount) <= MaxSequences ==> sequenceCount <= MaxSequences
    {
      if sequenceCount >= MaxSequences {
        return Some(MaxMessage);
      }
      var sequenceId := sequenceCount;
      sequenceCount := sequenceCount + 1;
      issued := issued + {sequenceId};
      items := items + [sequenceId];
      if |items| >= MaxSequences {
        addDisabled := true;
      }
      return None;
    }

    /** removeSequence: the item with that id leaves the page; the counter
      * stays, and the add button is enabled again below ten items. */
    method RemoveSequence(id: nat)
      requires Valid()
      modifies this
      ensures Valid()
      ensures sequenceCount == old(sequenceCount) && issued == old(issued)
      ensures items == RemoveFirst(old(items), id)
      ensures addDisabled == (if id in old(items) && |items| < MaxSequences then false else old(addDisabled))
    {
      var k := 0;
      while k < |items| && items[k] != id
        invariant 0 <= k <= |items|
        invariant id !in items[..k]
      {
        assert items[..k + 1] == items[..k] + [items[k]];
        k := k + 1;
      }
      if k == |items| {
        assert items[..k] == items;
        return;
      }
      RemoveFirstAt(items, id, k);
      SpliceIncreasing(items, k);
      items := items[..k] + items[k + 1..];
      if |items| < MaxSequences {
        addDisabled := false;
      }
    }

    /** The evident intent: at most ten items on the page at once, removal
      * frees a place, and ids are still never reused. */
    method AddNewSequenceBounded() returns (error: Option<string>)
      requires Valid()
      modifies this
      ensures Valid()
      ensures error.Some? <==> |old(items)| >= MaxSequences
      ensures error.Some? ==> error == Some(MaxMessage) && items == old(items) && sequenceCount == old(sequenceCount)
      ensures error.None? ==>
        items == old(items) + [old(sequenceCount)] && old(sequenceCount) !in old(issued)
        && sequenceCount == old(sequenceCount) + 1 && issued == old(issued) + {old(sequenceCount)}
      ensures |old(items)| <= MaxSequences ==> |items| <= MaxSequences
    {
      if |items| >= MaxSequences {
        return Some(MaxMessage);
      }
      var sequenceId := sequenceCount;
      sequenceCount := sequenceCount + 1;
      issued := issued + {sequenceId};
      items := items + [sequenceId];
      if |items| >= MaxSequences {
        addDisabled := true;
      }
      return None;
    }
  }

  /** On a fresh page, as written: nine additions succeed and the tenth is
    * refused although only nine items are on the page. */
  method TenthSequenceRefused() returns (slots: SequenceSlots, tenth: Option<string>)
    ensures |slots.items| == 9 && tenth == Some(MaxMessage)
  {
    slots := new SequenceSlots();
    var n := 0;
    while n < 9
      invariant 0 <= n <= 9
      invariant slots.Valid() && slots.sequenceCount == n + 1 && |slots.items| == n
    {
      var e := slots.AddNewSequence();
      n := n + 1;
    }
    tenth := slots.AddNewSequence();
  }

  /** As written: after nine additions and the removal of every item, the
    * page is empty and still nothing can be added. */
  method RemovalFreesNoSlot() returns (slots: SequenceSlots, again: Option<string>)
    ensures slots.items == [] && again == Some(MaxMessage)
  {
    slots := new SequenceSlots();
    var n := 0;
    while n < 9
      invariant 0 <= n <= 9
      invariant slots.Valid() && slots.sequenceCount == n + 1 && |slots.items| == n
    {
      var e := slots.AddNewSequence();
      n := n + 1;
    }
    while slots.items != []
      invariant slots.Valid() && slots.sequenceCount == 10
      decreases |slots.items|
    {
      slots.RemoveSequence(slots.items[0]);
    }
    again := slots.AddNewSequence();
  }

  /** With the bound on the items, the tenth sequence is accepted and the
    * eleventh refused. */
  method TenthSequenceAcceptedWhenBounded() returns (slots: SequenceSlots, tenth: Option<string>, eleventh: Option<string>)
    ensures tenth.None? && eleventh == Some(MaxMessage) && |slots.items| == 10
  {
    slots := new SequenceSlots();
    var n := 0;
    while n < 9
      invariant 0 <= n <= 9
      invariant slots.Valid() && |slots.items| == n
    {
      var e := slots.AddNewSequenceBounded();
      n := n + 1;
    }
    tenth := slots.AddNewSequenceBounded();
    eleventh := slots.AddNewSequenceBounded();
  }

  // ---------------------------------------------------------------------
  // Range pattern in a prefix (generateAllSequences).

  /** The characters `.` does not match in a JavaScript regular expression
    * without the `s` flag. */
  predicate IsLineTerminator(c: char)
  {
    c == '\n' || c == '\r' || c == '\U{2028}' || c == '\U{2029}'
  }

  /** What may follow an opening bracket: digits, a dash, digits and a
    * closing bracket, and the two numbers they spell. */
  function RangeBody(t: string): Option<(nat, nat)>
  {
    var a := DigitPrefix(t, 10);
    if a == [] || |a| == |t| || t[|a|] != '-' then None
    else
      var u := t[|a| + 1..];
      var b := DigitPrefix(u, 10);
      if b == [] || |b| == |u| || u[|b|] != ']' then None
      else Some((DigitsValue(a, 10), DigitsValue(b, 10)))
  }

  /** Some opening bracket of s starts a range. */
  predicate RangeSomewhere(s: string)
    decreases |s|
  {
    s != [] && ((s[0] == '[' && RangeBody(s[1..]).Some?) || RangeSomewhere(s[1..]))
  }

  /** The prefix matches `^(.*?)\[(\d+)-(\d+)\](.*)$`: no line terminator
    * anywhere (`.` and the anchors allow none) and a range somewhere. */
  predicate HasRange(s: string)
  {
    NoTerminator(s) && RangeSomewhere(s)
  }

  predicate NoTerminator(s: string)
  {
    forall i :: 0 <= i < |s| ==> !IsLineTerminator(s[i])
  }

  lemma NoTerminatorJoin(x: string, y: string)
    requires NoTerminator(x) && NoTerminator(y)
    ensures NoTerminator(x + y)
  {
    forall i | 0 <= i < |x + y| ensures !IsLineTerminator((x + y)[i]) {
      if i >= |x| {
        assert (x + y)[i] == y[i - |x|];
      }
    }
  }

  lemma DigitsNoTerminator(d: string)
    requires AllDigitsIn(d, 10)
    ensures NoTerminator(d)
  {
    forall i | 0 <= i < |d| ensures !IsLineTerminator(d[i]) {
      assert IsDigitIn(d[i], 10);
    }
  }

  /** Where the two digit runs of `a-b]rest` start and stop. */
  lemma RangeBodySplit(a: string, b: string, rest: string)
    requires a != [] && AllDigitsIn(a, 10) && b != [] && AllDigitsIn(b, 10)
    ensures var t := a + "-" + b + "]" + rest;
      DigitPrefix(t, 10) == a && |a| < |t| && t[|a|] == '-' && t[|a| + 1..] == b + "]" + rest
      && DigitPrefix(b + "]" + rest, 10) == b && (b + "]" + rest)[|b|] == ']'
  {
    var t := a + "-" + b + "]" + rest;
    assert t == a + ("-" + b + "]" + rest);
    DigitPrefixStops(a, "-" + b + "]" + rest, 10);
    assert b + "]" + rest == b + ("]" + rest);
    DigitPrefixStops(b, "]" + rest, 10);
  }

  /** `a-b]rest` is a range body whose bounds are the values of a and b. */
  lemma RangeBodyOf(a: string, b: string, rest: string, va: nat, vb: nat)
    requires a != [] && AllDigitsIn(a, 10) && b != [] && AllDigitsIn(b, 10)
    requires DigitsValue(a, 10) == va && DigitsValue(b, 10) == vb
    ensures RangeBody(a + "-" + b + "]" + rest) == Some((va, vb))
  {
    RangeBodySplit(a, b, rest);
  }

  lemma {:induction false} RangeAfter(p: string, r: string)
    requires RangeSomewhere(r)
    ensures RangeSomewhere(p + r)
    decreases |p|
  {
    if p == [] {
      assert p + r == r;
    } else {
      assert (p + r)[1..] == p[1..] + r;
      RangeAfter(p[1..], r);
    }
  }

  /** Every `PREFIX[START-END]SUFFIX` with digit bounds and no line breaks
    * is taken for a range. */
  lemma RangePatternRecognised(prefix: string, a: string, b: string, suffix: string)
    requires NoTerminator(prefix) && NoTerminator(suffix)
    requires a != [] && AllDigitsIn(a, 10) && b != [] && AllDigitsIn(b, 10)
    ensures HasRange(prefix + "[" + a + "-" + b + "]" + suffix)
  {
    var r := "[" + a + "-" + b + "]" + suffix;
    assert r[1..] == a + "-" + b + "]" + suffix;
    assert prefix + "[" + a + "-" + b + "]" + suffix == prefix + r;
    RangeBodyOf(a, b, suffix, DigitsValue(a, 10), DigitsValue(b, 10));
    RangeAfter(prefix, r);
    DigitsNoTerminator(a);
    DigitsNoTerminator(b);
    NoTerminatorJoin(prefix, "[");
    NoTerminatorJoin(prefix + "[", a);
    NoTerminatorJoin(prefix + "[" + a, "-");
    NoTerminatorJoin(prefix + "[" + a + "-", b);
    NoTerminatorJoin(prefix + "[" + a + "-" + b, "]");
    NoTerminatorJoin(prefix + "[" + a + "-" + b + "]", suffix);
  }

  /** Without an opening bracket there is no range. */
  lemma {:induction false} NoBracketNoRange(s: string)
    requires '[' !in s
    ensures !HasRange(s)
    decreases |s|
  {
    if s != [] {
      assert s[0] in s;
      assert forall c :: c in s[1..] ==> c in s;
      NoBracketNoRange(s[1..]);
      if HasRange(s[1..]) {
      }
    }
  }

  /** A sequence configuration as typed into the page's inputs. */
  datatype SequenceItem = SequenceItem(prefix: string, suffix: string, start: string, count: string,
                                       pad: string, barcodeType: string)

  const DefaultType: string := "code128"

  /** The index of the last element that satisfies p. */
  function LastWhere<T>(xs: seq<T>, p: T -> bool): (r: Option<nat>)
    ensures r.None? <==> forall i :: 0 <= i < |xs| ==> !p(xs[i])
    ensures r.Some? ==> r.value < |xs| && p(xs[r.value]) && forall j :: r.value < j < |xs| ==> !p(xs[j])
  {
    if xs == [] then None
    else if p(xs[|xs| - 1]) then Some(|xs| - 1)
    else LastWhere(xs[..|xs| - 1], p)
  }

  /** The item's prefix is filled in and holds a range. */
  predicate RangeItem(item: SequenceItem)
  {
    item.prefix != "" && HasRange(item.prefix)
  }

  /** The range string and barcode type of the last item whose prefix holds
    * a range: a range is sent exactly when some prefix holds one, and later
    * ranges win over earlier ones. */
  function LastRange(items: seq<SequenceItem>): (r: Option<(string, string)>)
    ensures r.None? <==> forall i :: 0 <= i < |items| ==> !RangeItem(items[i])
    ensures r.Some? ==>
      exists i :: 0 <= i < |items| && RangeItem(items[i]) && r.value == (items[i].prefix, TextOr(items[i].barcodeType, DefaultType))
                  && forall j :: i < j < |items| ==> !RangeItem(items[j])
  {
    match LastWhere(items, RangeItem)
    case None => None
    case Some(i) => Some((items[i].prefix, TextOr(items[i].barcodeType, DefaultType)))
  }

  /** One more item either holds the last range or leaves it as it was. */
  lemma LastRangeStep(items: seq<SequenceItem>, i: nat)
    requires i < |items|
    ensures LastRange(items[..i + 1]) ==
      if RangeItem(items[i]) then Some((items[i].prefix, TextOr(items[i].barcodeType, DefaultType)))
      else LastRange(items[..i])
  {
    assert items[..i + 1][..i] == items[..i];
  }

  /** The forEach over the items that remembers the last range found. */
  method DetectRange(items: seq<SequenceItem>) returns (hasRangePattern: bool, rangeString: string, barcodeType: string)
    ensures hasRangePattern <==> LastRange(items).Some?
    ensures hasRangePattern ==> (rangeString, barcodeType) == LastRange(items).value
    ensures !hasRangePattern ==> rangeString == "" && barcodeType == DefaultType
  {
    hasRangePattern, rangeString, barcodeType := false, "", DefaultType;
    for i := 0 to |items|
      invariant hasRangePattern <==> LastRange(items[..i]).Some?
      invariant hasRangePattern ==> (rangeString, barcodeType) == LastRange(items[..i]).value
      invariant !hasRangePattern ==> rangeString == "" && barcodeType == DefaultType
    {
      LastRangeStep(items, i);
      var item := items[i];
      if item.prefix != "" && HasRange(item.prefix) {
        hasRangePattern := true;
        rangeString := item.prefix;
        barcodeType := TextOr(item.barcodeType, DefaultType);
      }
    }
    assert items[..|items|] == items;
  }

  // ---------------------------------------------------------------------
  // Configurations and the cap on their total.

  /** `parseInt(v) || d`: an unreadable field and 0 both give d. */
  function IntOr(v: string, d: int): int
  {
    match ParseInt(v)
    case Some(n) => if n != 0 then n else d
    case None => d
  }

  function TextOr(v: string, d: string): string
  {
    if v != "" then v else d
  }

  datatype SequenceConfig = SequenceConfig(prefix: string, suffix: string, start: int, count: int,
                                           padLength: int, barcodeType: string)

  function ConfigOf(item: SequenceItem): SequenceConfig
  {
    SequenceConfig(TextOr(item.prefix, ""), TextOr(item.suffix, ""), IntOr(item.start, 1),
                   IntOr(item.count, 10), IntOr(item.pad, 0), TextOr(item.barcodeType, DefaultType))
  }

  /** A number typed into a field is sent as typed, except 0, which the
    * `||` replaces by the default: a start of 0 is sent as 1. */
  lemma ConfigReadsNumbers(item: SequenceItem, start: int, count: int)
    requires item.start == IntToDecimal(start) && item.count == IntToDecimal(count)
    ensures ConfigOf(item).start == if start != 0 then start else 1
    ensures ConfigOf(item).count == if count != 0 then count else 10
  {
    ParseIntRoundTrip(start);
    ParseIntRoundTrip(count);
  }

  /** Blank fields take the defaults. */
  lemma BlankItemDefaults()
    ensures ConfigOf(SequenceItem("", "", "", "", "", "")) == SequenceConfig("", "", 1, 10, 0, DefaultType)
  {
    assert TrimStart(Js, "") == "";
  }

  /** The reduce that sums the counts. */
  function Total(configs: seq<SequenceConfig>): int
  {
    if configs == [] then 0 else Total(configs[..|configs| - 1]) + configs[|configs| - 1].count
  }

  /** With every count at most m, the total is at most m per configuration. */
  lemma {:induction false} TotalBound(configs: seq<SequenceConfig>, m: int)
    requires forall i :: 0 <= i < |configs| ==> configs[i].count <= m
    ensures Total(configs) <= m * |configs|
  {
    if configs != [] {
      var init := configs[..|configs| - 1];
      assert forall i :: 0 <= i < |init| ==> init[i] == configs[i];
      TotalBound(init, m);
    }
  }

  /** One configuration per item, in order. */
  function Configs(items: seq<SequenceItem>): (cs: seq<SequenceConfig>)
    ensures |cs| == |items|
  {
    if items == [] then [] else Configs(items[..|items| - 1]) + [ConfigOf(items[|items| - 1])]
  }

  lemma {:induction false} ConfigsAt(items: seq<SequenceItem>, i: nat)
    requires i < |items|
    ensures Configs(items)[i] == ConfigOf(items[i])
  {
    if i < |items| - 1 {
      ConfigsAt(items[..|items| - 1], i);
    }
  }

  /** The forEach that builds one configuration per item. */
  method BuildConfigs(items: seq<SequenceItem>) returns (configs: seq<SequenceConfig>)
    ensures configs == Configs(items)
  {
    configs := [];
    for i := 0 to |items|
      invariant configs == Configs(items[..i])
    {
      assert items[..i + 1][..i] == items[..i];
      configs := configs + [ConfigOf(items[i])];
    }
    assert items[..|items|] == items;
  }

  const MaxTotal: int := 5000
  const NoSequencesMessage: string := "Please add at least one sequence configuration"
  const TooManyMessage: string := "Total number of barcodes cannot exceed 5,000"

  /** What generateAllSequences sends, or the error it shows instead. */
  datatype BulkRequest =
    | NoSequences
    | RangeRequest(rangeString: string, barcodeType: string, saveToSystem: bool)
    | TooMany(total: int)
    | SequencesRequest(sequences: seq<SequenceConfig>, saveToSystem: bool)

  method GenerateAllSequences(items: seq<SequenceItem>, loggedIn: bool) returns (r: BulkRequest)
    ensures r == NoSequences <==> items == []
    ensures items != [] && LastRange(items).Some? ==>
      r == RangeRequest(LastRange(items).value.0, LastRange(items).value.1, loggedIn)
    ensures r.TooMany? ==> LastRange(items).None? && r.total == Total(Configs(items)) && r.total > MaxTotal
    ensures r.SequencesRequest? ==>
      items != [] && LastRange(items).None? && r.sequences == Configs(items) && r.saveToSystem == loggedIn
      && Total(r.sequences) <= MaxTotal
    ensures items != [] && LastRange(items).None? ==> r.TooMany? || r.SequencesRequest?
    ensures items != [] && LastRange(items).None? ==> (r.TooMany? <==> Total(Configs(items)) > MaxTotal)
  {
    if |items| == 0 {
      return NoSequences;
    }
    var hasRangePattern, rangeString, barcodeType := DetectRange(items);
    if hasRangePattern {
      return RangeRequest(rangeString, barcodeType, loggedIn);
    }
    var sequenceBatch := BuildConfigs(items);
    var totalBarcodes := Total(sequenceBatch);
    if totalBarcodes > MaxTotal {
      return TooMany(totalBarcodes);
    }
    return SequencesRequest(sequenceBatch, loggedIn);
  }

  /** Ten configurations of at most 500 barcodes each are never refused for
    * their total. */
  lemma TenOfFiveHundredFit(configs: seq<SequenceConfig>)
    requires |configs| <= MaxSequences
    requires forall i :: 0 <= i < |configs| ==> configs[i].count <= 500
    ensures Total(configs) <= MaxTotal
  {
    TotalBound(configs, 500);
  }

  // ---------------------------------------------------------------------
  // The range shown above each result sequence (displayResults).

  /** The last number of a sequence counted down (a negative direction) or
    * up from start. */
  function RangeEnd(start: int, count: int, direction: Option<int>): (last: int)
    ensures count >= 1 ==> (if last >= start then last - start else start - last) == count - 1
    ensures direction.Some? && direction.value < 0 ==> last <= start || count < 1
    ensures !(direction.Some? && direction.value < 0) ==> last >= start || count < 1
  {
    if direction.Some? && direction.value < 0 then start - (count - 1) else start + (count - 1)
  }

  function RangeDisplay(start: int, count: int, direction: Option<int>): string
  {
    "[" + IntToDecimal(start) + "-" + IntToDecimal(RangeEnd(start, count, direction)) + "]"
  }

  /** A displayed range of non-negative numbers is itself a range the prefix
    * field accepts, and it reads back as its two bounds. */
  lemma DisplayedRangeIsPattern(start: nat, count: int, direction: Option<int>)
    requires RangeEnd(start, count, direction) >= 0
    ensures HasRange(RangeDisplay(start, count, direction))
    ensures RangeBody(RangeDisplay(start, count, direction)[1..]) == Some((start, RangeEnd(start, count, direction)))
  {
    var last: nat := RangeEnd(start, count, direction);
    NatRangeIsPattern(start, last);
  }

  lemma NatRangeIsPattern(x: nat, y: nat)
    ensures var d := "[" + IntToDecimal(x) + "-" + IntToDecimal(y) + "]";
      HasRange(d) && RangeBody(d[1..]) == Some((x, y))
  {
    NatToDecimalValue(x);
    NatToDecimalValue(y);
    var d := "[" + IntToDecimal(x) + "-" + IntToDecimal(y) + "]";
    DigitRangeRecognised(d, NatToDecimal(x), NatToDecimal(y));
    DigitRangeBody(d, NatToDecimal(x), NatToDecimal(y), x, y);
  }

  lemma DigitRangeRecognised(d: string, a: string, b: string)
    requires d == "[" + a + "-" + b + "]"
    requires a != [] && AllDigitsIn(a, 10) && b != [] && AllDigitsIn(b, 10)
    ensures HasRange(d)
  {
    assert d == "" + "[" + a + "-" + b + "]" + "";
    RangePatternRecognised("", a, b, "");
  }

  lemma DigitRangeBody(d: string, a: string, b: string, x: nat, y: nat)
    requires d == "[" + a + "-" + b + "]"
    requires a != [] && AllDigitsIn(a, 10) && b != [] && AllDigitsIn(b, 10)
    requires DigitsValue(a, 10) == x && DigitsValue(b, 10) == y
    ensures RangeBody(d[1..]) == Some((x, y))
  {
    assert d[1..] == a + "-" + b + "]" + "";
    RangeBodyOf(a, b, "", x, y);
  }

  // ---------------------------------------------------------------------
  // CSV export and ZIP download over all result sequences.

  /** A result sequence as displayResults receives it. */
  datatype ResultSequence = ResultSequence(prefix: JsValue, suffix: JsValue, barcodes: seq<ClientBarcode>)

  /** One CSV row: a barcode under its sequence's number (from 1) and
    * prefix and suffix. */
  datatype CsvRow = CsvRow(seqNumber: nat, prefix: JsValue, suffix: JsValue, barcode: ClientBarcode)

  const BulkCsvPrefix: string := "data:text/csv;charset=utf-8,"
  const BulkCsvHeader: string := "Sequence,Prefix,Suffix,Barcode Data,Barcode Type,ID"

  function RowText(r: CsvRow): string
  {
    NatToDecimal(r.seqNumber) + "," + Or(r.prefix, "") + "," + Or(r.suffix, "") + ","
    + ToText(r.barcode.data) + "," + ToText(r.barcode.barcodeType) + "," + ToText(r.barcode.id)
  }

  /** Every row's text ends with its barcode's id. */
  lemma RowEndsWithId(r: CsvRow)
    ensures var tail := "," + ToText(r.barcode.id);
      |tail| <= |RowText(r)| && RowText(r)[|RowText(r)| - |tail|..] == tail
  {
    var b := r.barcode;
    var head := NatToDecimal(r.seqNumber) + "," + Or(r.prefix, "") + "," + Or(r.suffix, "") + ","
                + ToText(b.data) + "," + ToText(b.barcodeType);
    assert RowText(r) == head + ("," + ToText(b.id));
  }

  function RowTexts(rs: seq<CsvRow>): (ls: seq<string>)
    ensures |ls| == |rs|
  {
    if rs == [] then [] else RowTexts(rs[..|rs| - 1]) + [RowText(rs[|rs| - 1])]
  }

  lemma RowTextsStep(rs: seq<CsvRow>, r: CsvRow)
    ensures RowTexts(rs + [r]) == RowTexts(rs) + [RowText(r)]
  {
    assert (rs + [r])[..|rs|] == rs;
  }

  lemma {:induction false} RowTextsAt(rs: seq<CsvRow>, i: nat)
    requires i < |rs|
    ensures RowTexts(rs)[i] == RowText(rs[i])
  {
    if i < |rs| - 1 {
      RowTextsAt(rs[..|rs| - 1], i);
    }
  }

  /** The rows of the first n barcodes of s, numbered seqNumber. */
  function SequenceRows(s: ResultSequence, seqNumber: nat, n: nat): (rs: seq<CsvRow>)
    requires n <= |s.barcodes|
    ensures |rs| == n
    ensures forall j :: 0 <= j < n ==> rs[j] == CsvRow(seqNumber, s.prefix, s.suffix, s.barcodes[j])
  {
    if n == 0 then [] else SequenceRows(s, seqNumber, n - 1) + [CsvRow(seqNumber, s.prefix, s.suffix, s.barcodes[n - 1])]
  }

  /** How many barcodes the sequences hold together. */
  function BarcodeCount(ss: seq<ResultSequence>): nat
  {
    if ss == [] then 0 else BarcodeCount(ss[..|ss| - 1]) + |ss[|ss| - 1].barcodes|
  }

  /** The rows of all sequences, sequence by sequence. */
  function AllRows(ss: seq<ResultSequence>): (rs: seq<CsvRow>)
    ensures |rs| == BarcodeCount(ss)
  {
    if ss == [] then []
    else AllRows(ss[..|ss| - 1]) + SequenceRows(ss[|ss| - 1], |ss|, |ss[|ss| - 1].barcodes|)
  }

  lemma AllRowsStep(ss: seq<ResultSequence>, k: nat)
    requires k < |ss|
    ensures AllRows(ss[..k + 1]) == AllRows(ss[..k]) + SequenceRows(ss[k], k + 1, |ss[k].barcodes|)
  {
    assert ss[..k + 1][..k] == ss[..k];
  }

  lemma {:induction false} PrefixCount(ss: seq<ResultSequence>, k: nat)
    requires k < |ss|
    ensures BarcodeCount(ss[..k]) + |ss[k].barcodes| <= BarcodeCount(ss)
    decreases |ss|
  {
    var n := |ss| - 1;
    if k < n {
      assert ss[..n][..k] == ss[..k] && ss[..n][k] == ss[k];
      PrefixCount(ss[..n], k);
    } else {
      assert ss[..k] == ss[..n];
    }
  }

  /** Barcode j of sequence k is row BarcodeCount(ss[..k]) + j, under
    * sequence number k + 1. */
  lemma {:induction false} AllRowsAt(ss: seq<ResultSequence>, k: nat, j: nat)
    requires k < |ss| && j < |ss[k].barcodes|
    ensures BarcodeCount(ss[..k]) + j < BarcodeCount(ss)
    ensures AllRows(ss)[BarcodeCount(ss[..k]) + j] == CsvRow(k + 1, ss[k].prefix, ss[k].suffix, ss[k].barcodes[j])
  {
    var n := |ss| - 1;
    var init := ss[..n];
    var front := AllRows(init);
    var back := SequenceRows(ss[n], n + 1, |ss[n].barcodes|);
    assert AllRows(ss) == front + back;
    if k < n {
      assert init[..k] == ss[..k] && init[k] == ss[k];
      AllRowsAt(init, k, j);
      var x := BarcodeCount(ss[..k]) + j;
      assert (front + back)[x] == front[x];
    } else {
      assert ss[..k] == init;
      assert (front + back)[|front| + j] == back[j];
    }
  }

  /** exportAllToCsv: the data URI with a header and one line per barcode,
    * sequence by sequence. */
  method ExportAllToCsv(ss: seq<ResultSequence>) returns (csvContent: string)
    ensures csvContent == BulkCsvPrefix + Terminated([BulkCsvHeader] + RowTexts(AllRows(ss)))
  {
    var text := BulkCsvHeader + "\n";
    assert Terminated([BulkCsvHeader]) == text by {
      assert [BulkCsvHeader][..0] == [];
    }
    assert AllRows(ss[..0]) == [];
    for k := 0 to |ss|
      invariant text == Terminated([BulkCsvHeader] + RowTexts(AllRows(ss[..k])))
    {
      text := AppendSequenceRows(text, AllRows(ss[..k]), ss[k], k + 1);
      AllRowsStep(ss, k);
    }
    assert ss[..|ss|] == ss;
    csvContent := BulkCsvPrefix + text;
  }

  /** The inner loop of exportAllToCsv: one line per barcode of sequence
    * number `seqNumber`, after the lines of the rows before it. */
  method AppendSequenceRows(text: string, ghost rows: seq<CsvRow>, s: ResultSequence, seqNumber: nat)
    returns (text': string)
    requires text == Terminated([BulkCsvHeader] + RowTexts(rows))
    ensures text' == Terminated([BulkCsvHeader] + RowTexts(rows + SequenceRows(s, seqNumber, |s.barcodes|)))
  {
    text' := text;
    assert rows + SequenceRows(s, seqNumber, 0) == rows;
    for j := 0 to |s.barcodes|
      invariant text' == Terminated([BulkCsvHeader] + RowTexts(rows + SequenceRows(s, seqNumber, j)))
    {
      var row := CsvRow(seqNumber, s.prefix, s.suffix, s.barcodes[j]);
      CsvAppendBarcode(rows, s, seqNumber, j);
      text' := text' + RowText(row) + "\n";
    }
  }

  lemma CsvAppendBarcode(rows: seq<CsvRow>, s: ResultSequence, seqNumber: nat, j: nat)
    requires j < |s.barcodes|
    ensures Terminated([BulkCsvHeader] + RowTexts(rows + SequenceRows(s, seqNumber, j + 1)))
      == Terminated([BulkCsvHeader] + RowTexts(rows + SequenceRows(s, seqNumber, j)))
         + RowText(CsvRow(seqNumber, s.prefix, s.suffix, s.barcodes[j])) + "\n"
  {
    var row := CsvRow(seqNumber, s.prefix, s.suffix, s.barcodes[j]);
    var done := rows + SequenceRows(s, seqNumber, j);
    assert rows + SequenceRows(s, seqNumber, j + 1) == done + [row];
    CsvAppendRow(done, row);
  }

  /** One more row adds its text and a newline to the file. */
  lemma CsvAppendRow(rows: seq<CsvRow>, row: CsvRow)
    ensures Terminated([BulkCsvHeader] + RowTexts(rows + [row]))
      == Terminated([BulkCsvHeader] + RowTexts(rows)) + RowText(row) + "\n"
  {
    RowTextsStep(rows, row);
    assert [BulkCsvHeader] + RowTexts(rows + [row]) == [BulkCsvHeader] + RowTexts(rows) + [RowText(row)];
    TerminatedStep([BulkCsvHeader] + RowTexts(rows), RowText(row));
  }

  /** The ids of the barcodes in sequence order, then barcode order. */
  function CollectIds(ss: seq<ResultSequence>): (ids: seq<JsValue>)
    ensures |ids| == BarcodeCount(ss)
  {
    if ss == [] then [] else CollectIds(ss[..|ss| - 1]) + IdsOf(ss[|ss| - 1].barcodes)
  }

  function IdsOf(bs: seq<ClientBarcode>): (ids: seq<JsValue>)
    ensures |ids| == |bs|
    ensures forall i :: 0 <= i < |bs| ==> ids[i] == bs[i].id
  {
    if bs == [] then [] else IdsOf(bs[..|bs| - 1]) + [bs[|bs| - 1].id]
  }

  /** The ZIP request lists the ids in the order of the CSV rows: id i is
    * the id of row i. */
  lemma {:induction false} IdsFollowRows(ss: seq<ResultSequence>)
    ensures |CollectIds(ss)| == |AllRows(ss)|
    ensures forall i :: 0 <= i < |AllRows(ss)| ==> CollectIds(ss)[i] == AllRows(ss)[i].barcode.id
  {
    if ss != [] {
      var n := |ss| - 1;
      IdsFollowRows(ss[..n]);
      var rs := AllRows(ss[..n]);
      var back := SequenceRows(ss[n], n + 1, |ss[n].barcodes|);
      var ids := CollectIds(ss[..n]);
      var more := IdsOf(ss[n].barcodes);
      assert AllRows(ss) == rs + back;
      assert CollectIds(ss) == ids + more;
      forall i | 0 <= i < |AllRows(ss)| ensures CollectIds(ss)[i] == AllRows(ss)[i].barcode.id {
        if i < |rs| {
          assert (rs + back)[i] == rs[i] && (ids + more)[i] == ids[i];
        } else {
          assert (rs + back)[i] == back[i - |rs|] && (ids + more)[i] == more[i - |rs|];
        }
      }
    }
  }

  /** CSV line i ends with the id the ZIP request lists at place i. */
  lemma CsvLineNamesZipId(ss: seq<ResultSequence>, i: nat)
    requires i < BarcodeCount(ss)
    ensures var line := RowTexts(AllRows(ss))[i];
      var tail := "," + ToText(CollectIds(ss)[i]);
      |tail| <= |line| && line[|line| - |tail|..] == tail
  {
    var rows := AllRows(ss);
    IdFollowsRow(ss, i);
    RowTextsAt(rows, i);
    LineEndsWithId(RowTexts(rows)[i], CollectIds(ss)[i], rows[i]);
  }

  lemma LineEndsWithId(line: string, id: JsValue, r: CsvRow)
    requires line == RowText(r) && id == r.barcode.id
    ensures var tail := "," + ToText(id);
      |tail| <= |line| && line[|line| - |tail|..] == tail
  {
    RowEndsWithId(r);
  }

  lemma IdFollowsRow(ss: seq<ResultSequence>, i: nat)
    requires i < BarcodeCount(ss)
    ensures i < |CollectIds(ss)| && CollectIds(ss)[i] == AllRows(ss)[i].barcode.id
  {
    IdsFollowRows(ss);
  }

  const NoBarcodesMessage: string := "No barcodes to download"
  const BulkZipUrl: string := "/api/user/barcodes/download-zip"

  datatype ZipDownload = NoBarcodesToDownload | ZipRequest(url: string, ids: seq<JsValue>)

  /** downloadAllBarcodes: every id pushed in order, refused when there is
    * none, else posted to the account ZIP endpoint. */
  method DownloadAllBarcodes(ss: seq<ResultSequence>) returns (r: ZipDownload)
    ensures r.NoBarcodesToDownload? <==> BarcodeCount(ss) == 0
    ensures r.ZipRequest? ==> r == ZipRequest(BulkZipUrl, CollectIds(ss))
  {
    var barcodeIds: seq<JsValue> := [];
    for k := 0 to |ss|
      invariant barcodeIds == CollectIds(ss[..k])
    {
      assert ss[..k + 1][..k] == ss[..k];
      var s := ss[k];
      for j := 0 to |s.barcodes|
        invariant barcodeIds == CollectIds(ss[..k]) + IdsOf(s.barcodes[..j])
      {
        assert s.barcodes[..j + 1][..j] == s.barcodes[..j];
        barcodeIds := barcodeIds + [s.barcodes[j].id];
      }
      assert s.barcodes[..|s.barcodes|] == s.barcodes;
    }
    assert ss[..|ss|] == ss;
    if |barcodeIds| == 0 {
      return NoBarcodesToDownload;
    }
    return ZipRequest(BulkZipUrl, barcodeIds);
  }
}
