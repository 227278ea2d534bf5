/** The JSON boundary of backend/app/input_validation.py: what it accepts, and how large an accepted value can be. */
module InputValidation {

  datatype Limits = Limits(maxDepth: nat, maxItems: nat, maxKeyLength: nat, maxStringLength: nat)

  /** A decoded value.  JOther is anything the decoder can hand over that is none of the JSON kinds. */
  datatype Json =
    | JNull
    | JBool(b: bool)
    | JInt(i: int)
    | JFloat(finite: bool)
    | JString(s: string)
    | JArray(items: seq<Json>)
    | JObject(entries: seq<Entry>)
    | JOther
  datatype Entry = Entry(key: Key, value: Json)
  datatype Key = TextKey(text: string) | OtherKey

  datatype Error = TooDeep | StringTooLong | TooManyItems | BadKey | Unsupported
  datatype Verdict = Accepted | Rejected(error: Error)

  /** The recursive check: the first violation met, in the order of the walk, is the one reported. */
  function Validate(l: Limits, v: Json, depth: nat): Verdict
    decreases v
  {
    if depth > l.maxDepth then Rejected(TooDeep)
    else match v
      case JNull => Accepted
      case JBool(_) => Accepted
      case JString(s) => if |s| > l.maxStringLength then Rejected(StringTooLong) else Accepted
      case JInt(_) => Accepted
      case JFloat(finite) => if finite then Accepted else Rejected(Unsupported)
      case JArray(items) =>
        if |items| > l.maxItems then Rejected(TooManyItems) else ValidateItems(l, items, depth + 1)
      case JObject(entries) =>
        if |entries| > l.maxItems then Rejected(TooManyItems) else ValidateEntries(l, v, entries, depth + 1)
      case JOther => Rejected(Unsupported)
  }

  function ValidateItems(l: Limits, items: seq<Json>, depth: nat): Verdict
    decreases items
  {
    if items == [] then Accepted
    else
      var first := Validate(l, items[0], depth);
      if first.Rejected? then first else ValidateItems(l, items[1..], depth)
  }

  function ValidateEntries(l: Limits, ghost owner: Json, entries: seq<Entry>, depth: nat): Verdict
    requires forall i :: 0 <= i < |entries| ==> entries[i].value < owner
    decreases owner, |entries|
  {
    if entries == [] then Accepted
    else
      var Entry(key, value) := entries[0];
      if key.OtherKey? || |key.text| > l.maxKeyLength then Rejected(BadKey)
      else
        var first := Validate(l, value, depth);
        if first.Rejected? then first else ValidateEntries(l, owner, entries[1..], depth)
  }

  // ---------- An independent reading of "within the limits" ----------

  function Children(v: Json): (cs: seq<Json>)
    ensures forall i :: 0 <= i < |cs| ==> cs[i] < v
  {
    match v
    case JArray(items) => items
    case JObject(entries) => seq(|entries|, i requires 0 <= i < |entries| => entries[i].value)
    case _ => []
  }

  /** `c` is `v` or lies `level` levels below it. */
  ghost predicate Below(v: Json, c: Json, level: nat)
    decreases v
  {
    if level == 0 then c == v
    else exists i :: 0 <= i < |Children(v)| && Below(Children(v)[i], c, level - 1)
  }

  predicate NodeOk(l: Limits, v: Json) {
    match v
    case JString(s) => |s| <= l.maxStringLength
    case JFloat(finite) => finite
    case JArray(items) => |items| <= l.maxItems
    case JObject(entries) =>
      |entries| <= l.maxItems
      && forall i :: 0 <= i < |entries| ==> entries[i].key.TextKey? && |entries[i].key.text| <= l.maxKeyLength
    case JOther => false
    case _ => true
  }

  /** Every value nested in `v` is of a supported kind and size, and none is nested deeper than the limit. */
  ghost predicate WithinLimits(l: Limits, v: Json, depth: nat) {
    forall c, level: nat :: Below(v, c, level) ==> depth + level <= l.maxDepth && NodeOk(l, c)
  }

  lemma {:induction false} ItemsAccepted(l: Limits, items: seq<Json>, depth: nat)
    ensures ValidateItems(l, items, depth).Accepted?
            <==> forall i :: 0 <= i < |items| ==> Validate(l, items[i], depth).Accepted?
    decreases items
  {
    if items != [] {
      ItemsAccepted(l, items[1..], depth);
      assert items == [items[0]] + items[1..];
    }
  }

  lemma {:induction false} EntriesAccepted(l: Limits, owner: Json, entries: seq<Entry>, depth: nat)
    requires forall i :: 0 <= i < |entries| ==> entries[i].value < owner
    ensures ValidateEntries(l, owner, entries, depth).Accepted?
            <==> forall i :: 0 <= i < |entries| ==>
                   entries[i].key.TextKey? && |entries[i].key.text| <= l.maxKeyLength
                   && Validate(l, entries[i].value, depth).Accepted?
    decreases |entries|
  {
    if entries != [] {
      EntriesAccepted(l, owner, entries[1..], depth);
      assert entries == [entries[0]] + entries[1..];
    }
  }

  /** One level of the check: the node itself, its depth, and its children one level down. */
  lemma AcceptedStep(l: Limits, v: Json, depth: nat)
    ensures Validate(l, v, depth).Accepted?
            <==> depth <= l.maxDepth && NodeOk(l, v)
                 && forall i :: 0 <= i < |Children(v)| ==> Validate(l, Children(v)[i], depth + 1).Accepted?
  {
    match v
    case JArray(items) =>
      ItemsAccepted(l, items, depth + 1);
      assert Children(v) == items;
    case JObject(entries) =>
      EntriesAccepted(l, v, entries, depth + 1);
      assert forall i :: 0 <= i < |entries| ==> Children(v)[i] == entries[i].value;
    case _ =>
  }

  /** The recursive check accepts exactly the values that are within the limits everywhere. */
  lemma {:induction false} AcceptedIffWithinLimits(l: Limits, v: Json, depth: nat)
    ensures Validate(l, v, depth).Accepted? <==> WithinLimits(l, v, depth)
    decreases v
  {
    AcceptedStep(l, v, depth);
    var cs := Children(v);
    forall i | 0 <= i < |cs|
      ensures Validate(l, cs[i], depth + 1).Accepted? <==> WithinLimits(l, cs[i], depth + 1)
    {
      AcceptedIffWithinLimits(l, cs[i], depth + 1);
    }
    if WithinLimits(l, v, depth) {
      assert Below(v, v, 0);
      forall i | 0 <= i < |cs| ensures WithinLimits(l, cs[i], depth + 1) {
        forall c, level: nat | Below(cs[i], c, level)
          ensures depth + 1 + level <= l.maxDepth && NodeOk(l, c)
        {
          assert Below(v, c, level + 1);
        }
      }
    }
    if depth <= l.maxDepth && NodeOk(l, v) && forall i :: 0 <= i < |cs| ==> WithinLimits(l, cs[i], depth + 1) {
      forall c, level: nat | Below(v, c, level)
        ensures depth + level <= l.maxDepth && NodeOk(l, c)
      {
        if level > 0 {
          var i :| 0 <= i < |cs| && Below(cs[i], c, level - 1);
        }
      }
    }
  }

  // ---------- What a rejection says ----------

  predicate HasBadKey(l: Limits, entries: seq<Entry>) {
    exists i :: 0 <= i < |entries| && (entries[i].key.OtherKey? || |entries[i].key.text| > l.maxKeyLength)
  }

  /** What is wrong with a value at its depth. */
  predicate Violates(l: Limits, v: Json, depth: nat, error: Error) {
    match error
    case TooDeep => depth > l.maxDepth
    case StringTooLong => v.JString? && |v.s| > l.maxStringLength
    case TooManyItems => (v.JArray? && |v.items| > l.maxItems) || (v.JObject? && |v.entries| > l.maxItems)
    case BadKey => v.JObject? && HasBadKey(l, v.entries)
    case Unsupported => v.JOther? || (v.JFloat? && !v.finite)
  }

  ghost predicate SomewhereBelow(l: Limits, v: Json, depth: nat, error: Error) {
    exists c, level: nat :: Below(v, c, level) && Violates(l, c, depth + level, error)
  }

  lemma {:induction false} ItemRejected(l: Limits, items: seq<Json>, depth: nat) returns (i: nat)
    requires ValidateItems(l, items, depth).Rejected?
    ensures i < |items| && Validate(l, items[i], depth) == ValidateItems(l, items, depth)
    decreases items
  {
    if Validate(l, items[0], depth).Rejected? {
      i := 0;
    } else {
      i := ItemRejected(l, items[1..], depth);
      i := i + 1;
    }
  }

  lemma {:induction false} EntryRejected(l: Limits, owner: Json, entries: seq<Entry>, depth: nat) returns (i: nat)
    requires forall k :: 0 <= k < |entries| ==> entries[k].value < owner
    requires ValidateEntries(l, owner, entries, depth).Rejected?
    ensures i < |entries|
    ensures if entries[i].key.OtherKey? || |entries[i].key.text| > l.maxKeyLength
            then ValidateEntries(l, owner, entries, depth) == Rejected(BadKey)
            else Validate(l, entries[i].value, depth) == ValidateEntries(l, owner, entries, depth)
    decreases |entries|
  {
    var Entry(key, value) := entries[0];
    if key.OtherKey? || |key.text| > l.maxKeyLength || Validate(l, value, depth).Rejected? {
      i := 0;
    } else {
      i := EntryRejected(l, owner, entries[1..], depth);
      i := i + 1;
    }
  }

  lemma BelowChild(l: Limits, v: Json, i: nat, depth: nat, error: Error)
    requires i < |Children(v)| && SomewhereBelow(l, Children(v)[i], depth + 1, error)
    ensures SomewhereBelow(l, v, depth, error)
  {
    var c, level: nat :| Below(Children(v)[i], c, level) && Violates(l, c, depth + 1 + level, error);
    assert Below(v, c, level + 1) && Violates(l, c, depth + (level + 1), error);
  }

  /** The error of a rejection tells what is wrong with some value nested in the one that is checked. */
  lemma {:induction false} RejectionIsTrue(l: Limits, v: Json, depth: nat)
    requires Validate(l, v, depth).Rejected?
    ensures SomewhereBelow(l, v, depth, Validate(l, v, depth).error)
    decreases v
  {
    var error := Validate(l, v, depth).error;
    assert Below(v, v, 0);
    if !Violates(l, v, depth, error) {
      match v
      case JArray(items) =>
        var i := ItemRejected(l, items, depth + 1);
        RejectionIsTrue(l, items[i], depth + 1);
        BelowChild(l, v, i, depth, error);
      case JObject(entries) =>
        var i := EntryRejected(l, v, entries, depth + 1);
        RejectionIsTrue(l, entries[i].value, depth + 1);
        BelowChild(l, v, i, depth, error);
    } else {
      assert Below(v, v, 0) && Violates(l, v, depth + 0, error);
    }
  }

  // ---------- How large an accepted value can be ----------

  function Nodes(v: Json): nat
    decreases v, 1
  {
    1 + NodesOf(v, Children(v))
  }

  function NodesOf(v: Json, cs: seq<Json>): nat
    requires forall i :: 0 <= i < |cs| ==> cs[i] < v
    decreases v, 0, |cs|
  {
    if cs == [] then 0 else Nodes(cs[0]) + NodesOf(v, cs[1..])
  }

  /** n^0 + n^1 + ... + n^d, by Horner's rule. */
  function GeometricSum(n: nat, d: nat): nat {
    if d == 0 then 1 else 1 + n * GeometricSum(n, d - 1)
  }

  function Power(n: nat, k: nat): nat {
    if k == 0 then 1 else n * Power(n, k - 1)
  }

  function SumOfPowers(n: nat, d: nat): nat {
    if d == 0 then Power(n, 0) else SumOfPowers(n, d - 1) + Power(n, d)
  }

  lemma Distribute(n: nat, a: nat, b: nat)
    ensures n * (a + b) == n * a + n * b && (a + b) * n == a * n + b * n
  {}

  lemma Monotone(a: nat, b: nat, c: nat)
    requires a <= b
    ensures a * c <= b * c
  {}

  lemma {:induction false} GeometricSumIsSumOfPowers(n: nat, d: nat)
    ensures GeometricSum(n, d) == SumOfPowers(n, d)
  {
    if d > 0 {
      GeometricSumIsSumOfPowers(n, d - 1);
      ScaledSum(n, d - 1);
    }
  }

  lemma {:induction false} ScaledSum(n: nat, d: nat)
    ensures 1 + n * SumOfPowers(n, d) == SumOfPowers(n, d + 1)
  {
    if d > 0 {
      ScaledSum(n, d - 1);
      Distribute(n, SumOfPowers(n, d - 1), Power(n, d));
      assert Power(n, d + 1) == n * Power(n, d);
    } else {
      assert SumOfPowers(n, 1) == SumOfPowers(n, 0) + Power(n, 1);
      assert Power(n, 1) == n * Power(n, 0);
    }
  }

  lemma {:induction false} NodesOfBound(v: Json, cs: seq<Json>, each: nat)
    requires forall i :: 0 <= i < |cs| ==> cs[i] < v
    requires forall i :: 0 <= i < |cs| ==> Nodes(cs[i]) <= each
    ensures NodesOf(v, cs) <= |cs| * each
    decreases |cs|
  {
    if cs != [] {
      NodesOfBound(v, cs[1..], each);
      Distribute(each, |cs| - 1, 1);
    }
  }

  lemma {:induction false} NodesBelow(l: Limits, v: Json, depth: nat)
    requires Validate(l, v, depth).Accepted?
    ensures depth <= l.maxDepth && Nodes(v) <= GeometricSum(l.maxItems, l.maxDepth - depth)
    decreases v
  {
    AcceptedStep(l, v, depth);
    var cs := Children(v);
    if cs != [] {
      assert Validate(l, cs[0], depth + 1).Accepted?;
      AcceptedStep(l, cs[0], depth + 1);
      var each := GeometricSum(l.maxItems, l.maxDepth - (depth + 1));
      forall i | 0 <= i < |cs| ensures Nodes(cs[i]) <= each {
        NodesBelow(l, cs[i], depth + 1);
      }
      NodesOfBound(v, cs, each);
      Monotone(|cs|, l.maxItems, each);
    }
  }

  /** An accepted document has at most N^0 + N^1 + ... + N^D nodes. */
  lemma NodeBound(l: Limits, v: Json)
    requires Validate(l, v, 0).Accepted?
    ensures Nodes(v) <= SumOfPowers(l.maxItems, l.maxDepth)
  {
    NodesBelow(l, v, 0);
    GeometricSumIsSumOfPowers(l.maxItems, l.maxDepth);
  }

  function FullTree(n: nat, d: nat): Json {
    if d == 0 then JNull else JArray(seq(n, _ => FullTree(n, d - 1)))
  }

  lemma {:induction false} NodesOfRepeated(v: Json, cs: seq<Json>, c: Json)
    requires c < v
    requires forall i :: 0 <= i < |cs| ==> cs[i] == c
    ensures NodesOf(v, cs) == |cs| * Nodes(c)
    decreases |cs|
  {
    if cs != [] {
      NodesOfRepeated(v, cs[1..], c);
      Distribute(Nodes(c), |cs| - 1, 1);
    }
  }

  lemma {:induction false} FullTreeAccepted(l: Limits, d: nat)
    requires d <= l.maxDepth
    ensures Validate(l, FullTree(l.maxItems, d), l.maxDepth - d).Accepted?
    ensures Nodes(FullTree(l.maxItems, d)) == GeometricSum(l.maxItems, d)
    decreases d
  {
    var v := FullTree(l.maxItems, d);
    if d > 0 {
      FullTreeAccepted(l, d - 1);
      AcceptedStep(l, v, l.maxDepth - d);
      var cs := Children(v);
      assert forall i :: 0 <= i < |cs| ==> cs[i] == FullTree(l.maxItems, d - 1);
      if cs != [] {
        NodesOfRepeated(v, cs, FullTree(l.maxItems, d - 1));
      }
      assert |cs| == l.maxItems;
    }
  }

  /** The bound is met by some accepted document, so no smaller one holds. */
  lemma NodeBoundIsTight(l: Limits)
    ensures exists v :: Validate(l, v, 0).Accepted? && Nodes(v) == SumOfPowers(l.maxItems, l.maxDepth)
  {
    FullTreeAccepted(l, l.maxDepth);
    GeometricSumIsSumOfPowers(l.maxItems, l.maxDepth);
    assert Validate(l, FullTree(l.maxItems, l.maxDepth), 0).Accepted?;
  }
}
