/** The one-level `extend` mechanism of the compiler settings: each entry that names base entries
    gets their fields merged in, then its own fields re-applied, then loses its `extend` field.
    Entries are processed in key order, in place, so a base that comes earlier in that order has
    already been extended when it is read. */
module Settings {
  import opened Wrappers
  import opened JsValues
  import opened Foreign

  /** One compiler entry: its fields by name. */
  type Entry = map<string, Value>

  const ExtendKey := "extend"

  /** `entry[k]`. */
  function Field(e: Entry, k: string): Value {
    if k in e then e[k] else Undefined
  }

  /** The entry has field `k` with a value other than `undefined`. */
  predicate Defines(e: Entry, k: string) {
    k in e && e[k] != Undefined
  }

  /** `_.merge(dst, src)` taken one level deep: every field of `src` overwrites the field of the same
      name, except that an `undefined` source value does not replace an existing field. */
  function Merge(dst: Entry, src: Entry): (r: Entry)
    ensures r.Keys == dst.Keys + src.Keys
    ensures forall k :: Defines(src, k) ==> r[k] == src[k]
    ensures forall k :: k in dst && !Defines(src, k) ==> r[k] == dst[k]
    ensures forall k :: k in src && k !in dst ==> r[k] == src[k]
  {
    map k | k in dst.Keys + src.Keys :: if Defines(src, k) || k !in dst then src[k] else dst[k]
  }

  lemma MergeSelf(e: Entry)
    ensures Merge(e, e) == e
  {
  }

  lemma MergeEmpty(e: Entry)
    ensures Merge(e, map[]) == e
  {
  }

  /** Merging a list of entries into `acc`, first to last. */
  function MergeAll(acc: Entry, ms: seq<Entry>): Entry
    decreases |ms|
  {
    if ms == [] then acc else MergeAll(Merge(acc, ms[0]), ms[1..])
  }

  /** A field no later entry defines keeps the value it has. */
  lemma {:induction false} MergeAllKeeps(acc: Entry, ms: seq<Entry>, f: string)
    requires f in acc
    requires forall k :: 0 <= k < |ms| ==> !Defines(ms[k], f)
    ensures f in MergeAll(acc, ms) && MergeAll(acc, ms)[f] == acc[f]
    decreases |ms|
  {
    if ms != [] {
      MergeAllKeeps(Merge(acc, ms[0]), ms[1..], f);
    }
  }

  /** Later entries override earlier ones: a field takes its value from the last entry of the list
      that defines it. */
  lemma {:induction false} LastDefinerWins(acc: Entry, ms: seq<Entry>, f: string, j: nat)
    requires j < |ms| && Defines(ms[j], f)
    requires forall k :: j < k < |ms| ==> !Defines(ms[k], f)
    ensures f in MergeAll(acc, ms) && MergeAll(acc, ms)[f] == ms[j][f]
    decreases |ms|
  {
    if j == 0 {
      MergeAllKeeps(Merge(acc, ms[0]), ms[1..], f);
    } else {
      LastDefinerWins(Merge(acc, ms[0]), ms[1..], f, j - 1);
    }
  }

  /** `compilerSettings[name]` as a merge source: a missing entry (or an inherited property of
      `Object.prototype`, which has no enumerable fields) merges as nothing. */
  function EntryOrEmpty(s: map<string, Entry>, name: string): Entry {
    if name in s then s[name] else map[]
  }

  /** The property key an element of an `extend` list stands for (`String(element)`). */
  function BaseName(b: Value, host: Host): string {
    ToJsString(b, host.utf8)
  }

  /** `extend.forEach(ek => _.merge(compilerSettings[key], compilerSettings[ek]))`, writing every
      intermediate result back, so a base that names the entry itself merges the entry into itself. */
  function MergeBases(s: map<string, Entry>, key: string, bases: seq<Value>, host: Host): (r: map<string, Entry>)
    requires key in s
    ensures r.Keys == s.Keys
    ensures forall k :: k in s && k != key ==> r[k] == s[k]
    decreases |bases|
  {
    if bases == [] then s
    else MergeBases(s[key := Merge(s[key], EntryOrEmpty(s, BaseName(bases[0], host)))], key, bases[1..], host)
  }

  /** The entries an `extend` list contributes, read from the settings as they are before the
      list is processed; a self-reference contributes nothing. */
  function BaseEntries(s: map<string, Entry>, key: string, bases: seq<Value>, host: Host): seq<Entry> {
    seq(|bases|, i requires 0 <= i < |bases| =>
          var name := BaseName(bases[i], host); if name == key then map[] else EntryOrEmpty(s, name))
  }

  /** Replacing the entry under `key` does not change what the remaining bases contribute. */
  lemma BaseEntriesAfterMerge(s: map<string, Entry>, key: string, bases: seq<Value>, host: Host, e: Entry)
    requires bases != []
    ensures BaseEntries(s[key := e], key, bases[1..], host) == BaseEntries(s, key, bases, host)[1..]
  {
    var all := BaseEntries(s, key, bases, host);
    var rest := BaseEntries(s[key := e], key, bases[1..], host);
    forall i | 0 <= i < |rest| ensures rest[i] == all[1..][i] {
      assert bases[1..][i] == bases[i + 1];
    }
  }

  /** In-place merging of the bases amounts to merging the list of base entries as they stood
      before the first merge. */
  lemma {:induction false} MergeBasesClosedForm(s: map<string, Entry>, key: string, bases: seq<Value>, host: Host)
    requires key in s
    ensures MergeBases(s, key, bases, host)[key] == MergeAll(s[key], BaseEntries(s, key, bases, host))
    decreases |bases|
  {
    if bases != [] {
      var name := BaseName(bases[0], host);
      var s1 := s[key := Merge(s[key], EntryOrEmpty(s, name))];
      MergeBasesClosedForm(s1, key, bases[1..], host);
      var all := BaseEntries(s, key, bases, host);
      BaseEntriesAfterMerge(s, key, bases, host, Merge(s[key], EntryOrEmpty(s, name)));
      if name == key {
        MergeSelf(s[key]);
        MergeEmpty(s[key]);
      }
      assert s1[key] == Merge(s[key], all[0]);
    }
  }

  const ForEachTypeError := Error("TypeError", "extend.forEach is not a function")

  /** One turn of the settings loop, for the entry under `key`. Only an array has `forEach`
      here: a Buffer would iterate its bytes in Node.js, but a value read from the configuration
      file is never a Buffer, so that case is not modelled. */
  function NormalizeEntry(s: map<string, Entry>, key: string, host: Host): (r: Result<map<string, Entry>, Error>)
    requires key in s
    ensures r.Failure? <==> Truthy(Field(s[key], ExtendKey)) && !Field(s[key], ExtendKey).Arr?
    ensures r.Failure? ==> r.error == ForEachTypeError
    ensures !Truthy(Field(s[key], ExtendKey)) ==> r == Success(s)
    ensures r.Success? ==> r.value.Keys == s.Keys && !Truthy(Field(r.value[key], ExtendKey))
    ensures r.Success? ==> forall k :: k in s && k != key ==> r.value[k] == s[k]
  {
    var e := s[key];
    var ext := Field(e, ExtendKey);
    if !Truthy(ext) then Success(s)
    else if !ext.Arr? then Failure(ForEachTypeError)
    else
      var rest := e - {ExtendKey};
      var merged := MergeBases(s, key, ext.items, host);
      Success(merged[key := Merge(merged[key], rest) - {ExtendKey}])
  }

  /** An extended entry: the entry's own fields (other than `extend`) win, and every other field
      comes from the last listed base that defines it. */
  lemma NormalizedEntryFields(s: map<string, Entry>, key: string, host: Host)
    requires key in s && Field(s[key], ExtendKey).Arr? && Truthy(Field(s[key], ExtendKey))
    ensures var bases := BaseEntries(s, key, Field(s[key], ExtendKey).items, host);
      NormalizeEntry(s, key, host) ==
      Success(s[key := Merge(MergeAll(s[key], bases), s[key] - {ExtendKey}) - {ExtendKey}])
    ensures var r := NormalizeEntry(s, key, host).value[key];
      forall f :: f != ExtendKey && Defines(s[key], f) ==> f in r && r[f] == s[key][f]
  {
    var e := s[key];
    var bases := Field(e, ExtendKey).items;
    MergeBasesClosedForm(s, key, bases, host);
    var merged := MergeBases(s, key, bases, host);
    var x := Merge(merged[key], e - {ExtendKey}) - {ExtendKey};
    assert merged[key := x] == s[key := x];
  }

  lemma LaterBaseWins(s: map<string, Entry>, key: string, host: Host, f: string, j: nat)
    requires key in s && Field(s[key], ExtendKey).Arr? && Truthy(Field(s[key], ExtendKey))
    requires f != ExtendKey && !Defines(s[key], f)
    requires var bases := BaseEntries(s, key, Field(s[key], ExtendKey).items, host);
      j < |bases| && Defines(bases[j], f) && forall k :: j < k < |bases| ==> !Defines(bases[k], f)
    ensures var bases := BaseEntries(s, key, Field(s[key], ExtendKey).items, host);
      var r := NormalizeEntry(s, key, host).value[key];
      f in r && r[f] == bases[j][f]
  {
    var bases := BaseEntries(s, key, Field(s[key], ExtendKey).items, host);
    NormalizedEntryFields(s, key, host);
    LastDefinerWins(s[key], bases, f, j);
  }

  /** The settings after processing a list of keys, and the error that stopped processing early. */
  datatype NormState = NormState(settings: map<string, Entry>, error: Option<Error>)

  /** The settings loop over the keys in `order`: stop at the first entry whose turn throws. */
  function NormalizeAll(s: map<string, Entry>, order: seq<string>, host: Host): (r: NormState)
    ensures r.settings.Keys == s.Keys
    decreases |order|
  {
    if order == [] then NormState(s, None)
    else if order[0] !in s then NormalizeAll(s, order[1..], host)
    else match NormalizeEntry(s, order[0], host)
      case Failure(e) => NormState(s, Some(e))
      case Success(s1) => NormalizeAll(s1, order[1..], host)
  }

  /** Processing `a + b` is processing `a`, then (if nothing was thrown) processing `b`. */
  lemma {:induction false} NormalizeAllSplit(s: map<string, Entry>, a: seq<string>, b: seq<string>, host: Host)
    ensures var ra := NormalizeAll(s, a, host);
      NormalizeAll(s, a + b, host) ==
      if ra.error.Some? then ra else NormalizeAll(ra.settings, b, host)
    decreases |a|
  {
    if a != [] {
      assert (a + b)[0] == a[0];
      assert (a + b)[1..] == a[1..] + b;
      if a[0] in s {
        match NormalizeEntry(s, a[0], host)
        case Failure(e) =>
        case Success(s1) => NormalizeAllSplit(s1, a[1..], b, host);
      } else {
        NormalizeAllSplit(s, a[1..], b, host);
      }
    } else {
      assert a + b == b;
    }
  }

  /** Entries whose key is not processed are left alone. */
  lemma {:induction false} NormalizeAllUntouched(s: map<string, Entry>, order: seq<string>, host: Host, k: string)
    requires k in s && k !in order
    ensures NormalizeAll(s, order, host).settings[k] == s[k]
    decreases |order|
  {
    if order != [] {
      if order[0] in s {
        match NormalizeEntry(s, order[0], host)
        case Failure(e) =>
        case Success(s1) => NormalizeAllUntouched(s1, order[1..], host, k);
      } else {
        NormalizeAllUntouched(s, order[1..], host, k);
      }
    }
  }

  /** Once the loop has completed, no entry it visited has a truthy `extend` field; entries it
      skipped keep whatever they had. A falsy `extend` (such as `null`) is never deleted. */
  lemma {:induction false} NoTruthyExtendRemains(s: map<string, Entry>, order: seq<string>, host: Host)
    requires NormalizeAll(s, order, host).error.None?
    ensures var out := NormalizeAll(s, order, host).settings;
      forall k :: k in s && (k in order || !Truthy(Field(s[k], ExtendKey))) ==> !Truthy(Field(out[k], ExtendKey))
    decreases |order|
  {
    if order != [] {
      if order[0] in s {
        match NormalizeEntry(s, order[0], host)
        case Failure(e) =>
        case Success(s1) => NoTruthyExtendRemains(s1, order[1..], host);
      } else {
        NoTruthyExtendRemains(s, order[1..], host);
      }
    }
  }

  predicate Distinct(order: seq<string>) {
    forall i, j :: 0 <= i < j < |order| ==> order[i] != order[j]
  }

  /** In a completed loop over distinct keys, the final entry under `order[i]` is what that entry's
      turn produced from the settings as they stood after the turns before it. */
  lemma NormalizeAllAt(s: map<string, Entry>, order: seq<string>, host: Host, i: nat)
    requires Distinct(order) && i < |order| && order[i] in s
    requires NormalizeAll(s, order, host).error.None?
    ensures var before := NormalizeAll(s, order[..i], host);
      before.error.None? && order[i] in before.settings &&
      NormalizeEntry(before.settings, order[i], host).Success? &&
      NormalizeAll(s, order, host).settings[order[i]] ==
        NormalizeEntry(before.settings, order[i], host).value[order[i]]
  {
    var key := order[i];
    assert order == order[..i] + ([key] + order[i + 1..]);
    NormalizeAllSplit(s, order[..i], [key] + order[i + 1..], host);
    var before := NormalizeAll(s, order[..i], host);
    assert before.error.None?;
    var mid := before.settings;
    assert ([key] + order[i + 1..])[1..] == order[i + 1..];
    var s1 := NormalizeEntry(mid, key, host).value;
    assert key !in order[i + 1..];
    NormalizeAllUntouched(s1, order[i + 1..], host, key);
  }

  /** In a completed loop over distinct keys, every extended entry keeps its own fields. */
  lemma OwnFieldsWin(s: map<string, Entry>, order: seq<string>, host: Host, i: nat, f: string)
    requires Distinct(order) && i < |order| && order[i] in s
    requires NormalizeAll(s, order, host).error.None?
    requires f != ExtendKey && Defines(s[order[i]], f)
    ensures var out := NormalizeAll(s, order, host).settings[order[i]];
      f in out && out[f] == s[order[i]][f]
  {
    var key := order[i];
    NormalizeAllAt(s, order, host, i);
    var before := NormalizeAll(s, order[..i], host);
    assert key !in order[..i];
    NormalizeAllUntouched(s, order[..i], host, key);
    assert before.settings[key] == s[key];
    if Truthy(Field(s[key], ExtendKey)) {
      NormalizedEntryFields(before.settings, key, host);
    }
  }
}
