/** `utils.formatDeep`: a deep clone of a configuration value in which every string leaf has been
    passed through string-format with one substitution context. */
module Utils {
  import opened JsValues
  import opened Foreign

  /** `_.cloneDeepWith(value, customizer)` with a customizer that formats strings and returns
      `undefined` (so: clone as usual, and recurse) for everything else. */
  function FormatDeep(v: Value, fmt: Value, host: Host): Value {
    match v
    case Str(s) => Str(host.format(s, fmt))
    case Arr(items) =>
      Arr(seq(|items|, i requires 0 <= i < |items| => FormatDeep(items[i], fmt, host)))
    case Obj(props) =>
      Obj(seq(|props|, i requires 0 <= i < |props| => Prop(props[i].key, FormatDeep(props[i].val, fmt, host))))
    case _ => v
  }

  /** The shape of a value: every string emptied, everything else kept. Two values with the same
      skeleton have the same container kinds, lengths, element order, keys and non-string leaves. */
  function Skeleton(v: Value): Value {
    match v
    case Str(_) => Str("")
    case Arr(items) => Arr(seq(|items|, i requires 0 <= i < |items| => Skeleton(items[i])))
    case Obj(props) => Obj(seq(|props|, i requires 0 <= i < |props| => Prop(props[i].key, Skeleton(props[i].val))))
    case _ => v
  }

  /** The leaves of a value (everything that is not an array or an object), left to right. */
  function Leaves(v: Value): seq<Value> {
    match v
    case Arr(items) => LeavesOfItems(items)
    case Obj(props) => LeavesOfProps(props)
    case _ => [v]
  }

  function LeavesOfItems(items: seq<Value>): seq<Value>
    decreases items
  {
    if items == [] then [] else Leaves(items[0]) + LeavesOfItems(items[1..])
  }

  function LeavesOfProps(props: seq<Prop>): seq<Value>
    decreases props
  {
    if props == [] then [] else Leaves(props[0].val) + LeavesOfProps(props[1..])
  }

  /** What formatting does to one leaf. */
  function FormatLeaf(leaf: Value, fmt: Value, host: Host): Value {
    if leaf.Str? then Str(host.format(leaf.s, fmt)) else leaf
  }

  /** Every string that occurs in a value. */
  function Strings(v: Value): set<string> {
    set leaf | leaf in Leaves(v) && leaf.Str? :: leaf.s
  }

  /** formatDeep keeps the shape: only string leaves are affected. */
  lemma {:induction false} FormatDeepKeepsSkeleton(v: Value, fmt: Value, host: Host)
    ensures Skeleton(FormatDeep(v, fmt, host)) == Skeleton(v)
  {
    match v
    case Str(_) =>
    case Arr(items) =>
      forall i | 0 <= i < |items| ensures Skeleton(FormatDeep(items[i], fmt, host)) == Skeleton(items[i]) {
        FormatDeepKeepsSkeleton(items[i], fmt, host);
      }
    case Obj(props) =>
      forall i | 0 <= i < |props| ensures Skeleton(FormatDeep(props[i].val, fmt, host)) == Skeleton(props[i].val) {
        FormatDeepKeepsSkeleton(props[i].val, fmt, host);
      }
    case _ =>
  }

  /** The leaves of the result are the leaves of the input, in the same order, each string leaf
      formatted and every other leaf unchanged (this covers a root that is itself a string). */
  lemma {:induction false} FormatDeepLeaves(v: Value, fmt: Value, host: Host)
    ensures Leaves(FormatDeep(v, fmt, host)) ==
            seq(|Leaves(v)|, i requires 0 <= i < |Leaves(v)| => FormatLeaf(Leaves(v)[i], fmt, host))
  {
    match v
    case Arr(items) => ItemsLeaves(items, fmt, host);
    case Obj(props) => PropsLeaves(props, fmt, host);
    case _ =>
  }

  lemma {:induction false} ItemsLeaves(items: seq<Value>, fmt: Value, host: Host)
    ensures LeavesOfItems(seq(|items|, i requires 0 <= i < |items| => FormatDeep(items[i], fmt, host))) ==
            seq(|LeavesOfItems(items)|, i requires 0 <= i < |LeavesOfItems(items)| => FormatLeaf(LeavesOfItems(items)[i], fmt, host))
    decreases items
  {
    var out := seq(|items|, i requires 0 <= i < |items| => FormatDeep(items[i], fmt, host));
    if items != [] {
      FormatDeepLeaves(items[0], fmt, host);
      var tail := items[1..];
      assert out[1..] == seq(|tail|, i requires 0 <= i < |tail| => FormatDeep(tail[i], fmt, host));
      ItemsLeaves(tail, fmt, host);
      MappedConcat(Leaves(items[0]), LeavesOfItems(tail), fmt, host);
    }
  }

  lemma {:induction false} PropsLeaves(props: seq<Prop>, fmt: Value, host: Host)
    ensures LeavesOfProps(seq(|props|, i requires 0 <= i < |props| => Prop(props[i].key, FormatDeep(props[i].val, fmt, host)))) ==
            seq(|LeavesOfProps(props)|, i requires 0 <= i < |LeavesOfProps(props)| => FormatLeaf(LeavesOfProps(props)[i], fmt, host))
    decreases props
  {
    var out := seq(|props|, i requires 0 <= i < |props| => Prop(props[i].key, FormatDeep(props[i].val, fmt, host)));
    if props != [] {
      FormatDeepLeaves(props[0].val, fmt, host);
      var tail := props[1..];
      assert out[1..] == seq(|tail|, i requires 0 <= i < |tail| => Prop(tail[i].key, FormatDeep(tail[i].val, fmt, host)));
      PropsLeaves(tail, fmt, host);
      MappedConcat(Leaves(props[0].val), LeavesOfProps(tail), fmt, host);
    }
  }

  lemma MappedConcat(a: seq<Value>, b: seq<Value>, fmt: Value, host: Host)
    ensures seq(|a|, i requires 0 <= i < |a| => FormatLeaf(a[i], fmt, host)) +
            seq(|b|, i requires 0 <= i < |b| => FormatLeaf(b[i], fmt, host)) ==
            seq(|a + b|, i requires 0 <= i < |a + b| => FormatLeaf((a + b)[i], fmt, host))
  {
  }

  /** When formatting leaves every string of the value as it is (no placeholders, say),
      formatDeep is the identity. */
  lemma {:induction false} FormatDeepIdentity(v: Value, fmt: Value, host: Host)
    requires forall s :: s in Strings(v) ==> host.format(s, fmt) == s
    ensures FormatDeep(v, fmt, host) == v
  {
    match v
    case Str(s) =>
      assert Leaves(v) == [v];
      assert s in Strings(v);
    case Arr(items) =>
      forall i | 0 <= i < |items| ensures FormatDeep(items[i], fmt, host) == items[i] {
        ItemStringsIncluded(items, i);
        FormatDeepIdentity(items[i], fmt, host);
      }
      assert FormatDeep(v, fmt, host).items == items;
    case Obj(props) =>
      forall i | 0 <= i < |props| ensures FormatDeep(props[i].val, fmt, host) == props[i].val {
        PropStringsIncluded(props, i);
        FormatDeepIdentity(props[i].val, fmt, host);
      }
      assert FormatDeep(v, fmt, host).props == props;
    case _ =>
  }

  lemma {:induction false} ItemStringsIncluded(items: seq<Value>, i: nat)
    requires i < |items|
    ensures Strings(items[i]) <= Strings(Arr(items))
  {
    LeavesOfItemsIncludes(items, i);
    forall s | s in Strings(items[i]) ensures s in Strings(Arr(items)) {
      var leaf :| leaf in Leaves(items[i]) && leaf.Str? && leaf.s == s;
      assert leaf in multiset(Leaves(items[i]));
    }
  }

  lemma {:induction false} LeavesOfItemsIncludes(items: seq<Value>, i: nat)
    requires i < |items|
    ensures multiset(Leaves(items[i])) <= multiset(LeavesOfItems(items))
    decreases items
  {
    if i > 0 {
      LeavesOfItemsIncludes(items[1..], i - 1);
    }
  }

  lemma {:induction false} PropStringsIncluded(props: seq<Prop>, i: nat)
    requires i < |props|
    ensures Strings(props[i].val) <= Strings(Obj(props))
  {
    LeavesOfPropsIncludes(props, i);
    forall s | s in Strings(props[i].val) ensures s in Strings(Obj(props)) {
      var leaf :| leaf in Leaves(props[i].val) && leaf.Str? && leaf.s == s;
      assert leaf in multiset(Leaves(props[i].val));
    }
  }

  lemma {:induction false} LeavesOfPropsIncludes(props: seq<Prop>, i: nat)
    requires i < |props|
    ensures multiset(Leaves(props[i].val)) <= multiset(LeavesOfProps(props))
    decreases props
  {
    if i > 0 {
      LeavesOfPropsIncludes(props[1..], i - 1);
    }
  }

  /** formatDeep commutes with indexing into an array ... */
  lemma FormatDeepAtIndex(v: Value, i: int, fmt: Value, host: Host)
    ensures Index(FormatDeep(v, fmt, host), i) == FormatDeep(Index(v, i), fmt, host)
  {
  }

  /** ... and with reading a property of an object (absent keys stay absent). */
  lemma {:induction false} FormatDeepAtKey(v: Value, key: string, fmt: Value, host: Host)
    ensures Get(FormatDeep(v, fmt, host), key) == FormatDeep(Get(v, key), fmt, host)
  {
    if v.Obj? {
      LookupFormatted(v.props, key, fmt, host);
    }
  }

  lemma {:induction false} LookupFormatted(props: seq<Prop>, key: string, fmt: Value, host: Host)
    ensures Lookup(seq(|props|, i requires 0 <= i < |props| => Prop(props[i].key, FormatDeep(props[i].val, fmt, host))), key) ==
            FormatDeep(Lookup(props, key), fmt, host)
    decreases props
  {
    var out := seq(|props|, i requires 0 <= i < |props| => Prop(props[i].key, FormatDeep(props[i].val, fmt, host)));
    if props != [] && props[0].key != key {
      var tail := props[1..];
      assert out[1..] == seq(|tail|, i requires 0 <= i < |tail| => Prop(tail[i].key, FormatDeep(tail[i].val, fmt, host)));
      LookupFormatted(tail, key, fmt, host);
    }
  }
}
