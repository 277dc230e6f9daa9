/** The per-category tally of the tools about to be registered, kept in the
    order categories first appear. `CountCategories` is the tally the code
    evidently means; `TallyAsWritten` models the plain-object lookup the
    code performs, which also sees the members every object inherits. */
module Tally {
  import opened Category
  import opened Catalog

  /** Category keys with their counts, in first-appearance order. */
  type Counts = seq<(string, nat)>

  /** The count recorded for `k`, or 0 when `k` has no entry. */
  function Lookup(c: Counts, k: string): nat
  {
    if |c| == 0 then 0
    else if c[0].0 == k then c[0].1
    else Lookup(c[1..], k)
  }

  /** The keys recorded in `c`. */
  function Keys(c: Counts): set<string>
  {
    if |c| == 0 then {} else {c[0].0} + Keys(c[1..])
  }

  /** No key is recorded twice. */
  predicate KeysUnique(c: Counts)
  {
    |c| == 0 || (c[0].0 !in Keys(c[1..]) && KeysUnique(c[1..]))
  }

  /** The total of all recorded counts. */
  function Sum(c: Counts): nat
  {
    if |c| == 0 then 0 else c[0].1 + Sum(c[1..])
  }

  /** `counts[k] = (counts[k] || 0) + 1` on an object with own keys only:
      the entry for `k` grows by one, or a new entry `(k, 1)` is appended. */
  function Bump(c: Counts, k: string): (r: Counts)
    ensures forall k' :: Lookup(r, k') == Lookup(c, k') + (if k' == k then 1 else 0)
    ensures Keys(r) == Keys(c) + {k}
    ensures KeysUnique(c) ==> KeysUnique(r)
    ensures Sum(r) == Sum(c) + 1
  {
    if |c| == 0 then [(k, 1)]
    else if c[0].0 == k then
      var r := [(k, c[0].1 + 1)] + c[1..];
      assert r[1..] == c[1..];
      r
    else
      var r := [c[0]] + Bump(c[1..], k);
      assert r[1..] == Bump(c[1..], k);
      r
  }

  /** The category of each tool, in order. */
  function CategoryList(tools: seq<Tool>): (r: seq<string>)
    ensures |r| == |tools|
    ensures forall i :: 0 <= i < |tools| ==> r[i] == GetCategory(tools[i].name)
  {
    seq(|tools|, i requires 0 <= i < |tools| => GetCategory(tools[i].name))
  }

  /** The tally loop as the code evidently means it: `Bump` each key in
      turn. */
  function TallyKeys(keys: seq<string>): Counts
  {
    if |keys| == 0 then []
    else Bump(TallyKeys(keys[..|keys| - 1]), keys[|keys| - 1])
  }

  /** The per-category tally of the tools to register. */
  function CountCategories(tools: seq<Tool>): Counts
  {
    TallyKeys(CategoryList(tools))
  }

  /** The tally holds one entry per distinct key, each holding how often the
      key occurs, so the counts add up to the number of keys. */
  lemma {:induction false} TallyKeysCorrect(keys: seq<string>)
    ensures KeysUnique(TallyKeys(keys))
    ensures forall k :: k in Keys(TallyKeys(keys)) <==> k in keys
    ensures forall k :: Lookup(TallyKeys(keys), k) == multiset(keys)[k]
    ensures Sum(TallyKeys(keys)) == |keys|
    decreases |keys|
  {
    if |keys| > 0 {
      var init := keys[..|keys| - 1];
      var last := keys[|keys| - 1];
      TallyKeysCorrect(init);
      assert keys == init + [last];
    }
  }

  /** The per-category tally: one entry per category among the tools, each
      holding the number of tools in that category; the counts add up to
      the number of tools. */
  lemma CountCategoriesCorrect(tools: seq<Tool>)
    ensures KeysUnique(CountCategories(tools))
    ensures forall k :: k in Keys(CountCategories(tools)) <==> exists t :: t in tools && GetCategory(t.name) == k
    ensures forall k :: Lookup(CountCategories(tools), k) == multiset(CategoryList(tools))[k]
    ensures Sum(CountCategories(tools)) == |tools|
  {
    var ks := CategoryList(tools);
    TallyKeysCorrect(ks);
    forall k
      ensures k in ks <==> exists t :: t in tools && GetCategory(t.name) == k
    {
      if k in ks {
        var i :| 0 <= i < |ks| && ks[i] == k;
        assert tools[i] in tools;
      }
    }
  }

  // ---------------------------------------------------------------------
  // The tally as written: `categoryCount` is a plain `{}`, so reading a key
  // it does not own falls through to the members of Object.prototype.

  /** A value the as-written tally can hold: a count, or the text a
      non-number turns into under `+ 1`. */
  datatype Slot = Count(n: int) | Concat(s: string)

  /** The as-written tally's own entries, in first-appearance order. */
  type RawCounts = seq<(string, Slot)>

  /** The methods every plain object inherits from Object.prototype. */
  const PrototypeMethods: set<string> :=
    {"constructor", "hasOwnProperty", "isPrototypeOf", "propertyIsEnumerable",
     "toLocaleString", "toString", "valueOf", "__defineGetter__",
     "__defineSetter__", "__lookupGetter__", "__lookupSetter__"}

  /** The accessor whose setter ignores a non-object value. */
  const ProtoKey: string := "__proto__"

  /** The source text of an inherited method, which is what `+ 1` turns the
      function into (the wording of the V8 engine). */
  function NativeSource(k: string): string
  {
    "function " + (if k == "constructor" then "Object" else k) + "() { [native code] }"
  }

  /** The own entry for `k`, if any. */
  function OwnSlot(c: RawCounts, k: string): (r: Slot)
    requires exists i :: 0 <= i < |c| && c[i].0 == k
  {
    if c[0].0 == k then c[0].1 else OwnSlot(c[1..], k)
  }

  /** `categoryCount[k] || 0`, already in the form `+ 1` sees it: an own
      count, the text of an inherited method, the text of the prototype
      object for `__proto__`, or 0. */
  function ReadOrZero(c: RawCounts, k: string): Slot
  {
    if exists i :: 0 <= i < |c| && c[i].0 == k then OwnSlot(c, k)
    else if k in PrototypeMethods then Concat(NativeSource(k))
    else if k == ProtoKey then Concat("[object Object]")
    else Count(0)
  }

  /** `x + 1`: arithmetic on a number, string concatenation otherwise. */
  function PlusOne(s: Slot): Slot
  {
    match s
    case Count(n) => Count(n + 1)
    case Concat(t) => Concat(t + "1")
  }

  /** `categoryCount[k] = v`: overwrite the own entry or append one; writing
      a non-object to `__proto__` changes nothing. */
  function Store(c: RawCounts, k: string, v: Slot): RawCounts
  {
    if k == ProtoKey then c
    else if |c| == 0 then [(k, v)]
    else if c[0].0 == k then [(k, v)] + c[1..]
    else [c[0]] + Store(c[1..], k, v)
  }

  /** The tally loop exactly as written, over a sequence of keys. */
  function TallyKeysAsWritten(keys: seq<string>): RawCounts
  {
    if |keys| == 0 then []
    else
      var c := TallyKeysAsWritten(keys[..|keys| - 1]);
      var k := keys[|keys| - 1];
      Store(c, k, PlusOne(ReadOrZero(c, k)))
  }

  /** The tally loop exactly as written, over the tools to register. */
  function TallyAsWritten(tools: seq<Tool>): RawCounts
  {
    TallyKeysAsWritten(CategoryList(tools))
  }

  /** The corrected tally seen as the values the loop would store. */
  function AsSlots(c: Counts): (r: RawCounts)
    ensures |r| == |c|
    ensures forall i :: 0 <= i < |c| ==> r[i] == (c[i].0, Count(c[i].1))
  {
    if |c| == 0 then [] else [(c[0].0, Count(c[0].1))] + AsSlots(c[1..])
  }

  /** A key that no plain object inherits. */
  predicate OwnOnly(k: string)
  {
    k !in PrototypeMethods && k != ProtoKey
  }

  /** Away from inherited names the as-written tally is the intended one:
      every key holds its count as a number. */
  lemma {:induction false} AgreesAwayFromPrototype(keys: seq<string>)
    requires forall i :: 0 <= i < |keys| ==> OwnOnly(keys[i])
    ensures TallyKeysAsWritten(keys) == AsSlots(TallyKeys(keys))
    decreases |keys|
  {
    if |keys| > 0 {
      var init := keys[..|keys| - 1];
      var k := keys[|keys| - 1];
      AgreesAwayFromPrototype(init);
      var c := TallyKeys(init);
      ReadOwnCount(c, k);
      StoreBump(c, k);
    }
  }

  /** For a catalog whose categories are all own-only names, the
      as-written tally records exactly the intended counts. */
  lemma TallyAgreesForOrdinaryNames(tools: seq<Tool>)
    requires forall t :: t in tools ==> OwnOnly(GetCategory(t.name))
    ensures TallyAsWritten(tools) == AsSlots(CountCategories(tools))
  {
    var ks := CategoryList(tools);
    forall i | 0 <= i < |ks|
      ensures OwnOnly(ks[i])
    {
      assert tools[i] in tools;
    }
    AgreesAwayFromPrototype(ks);
  }

  /** Reading an own-only key from the stored counts yields its count (0
      when absent). */
  lemma {:induction false} ReadOwnCount(c: Counts, k: string)
    requires OwnOnly(k)
    ensures ReadOrZero(AsSlots(c), k) == Count(Lookup(c, k))
    decreases |c|
  {
    var r := AsSlots(c);
    if |c| > 0 {
      if c[0].0 == k {
        assert r[0].0 == k;
      } else {
        assert r[1..] == AsSlots(c[1..]);
        ReadOwnCount(c[1..], k);
        var hit := exists i :: 0 <= i < |r| && r[i].0 == k;
        var tailHit := exists i :: 0 <= i < |r[1..]| && r[1..][i].0 == k;
        assert hit <==> tailHit by {
          if hit {
            var i :| 0 <= i < |r| && r[i].0 == k;
            assert r[1..][i - 1].0 == k;
          }
          if tailHit {
            var i :| 0 <= i < |r[1..]| && r[1..][i].0 == k;
            assert r[i + 1].0 == k;
          }
        }
      }
    }
  }

  /** Storing the incremented count of an own-only key is `Bump`. */
  lemma {:induction false} StoreBump(c: Counts, k: string)
    requires OwnOnly(k)
    ensures Store(AsSlots(c), k, Count(Lookup(c, k) + 1)) == AsSlots(Bump(c, k))
    decreases |c|
  {
    if |c| > 0 {
      var r := AsSlots(c);
      assert r[1..] == AsSlots(c[1..]);
      if c[0].0 != k {
        StoreBump(c[1..], k);
        assert AsSlots(Bump(c, k)) == [(c[0].0, Count(c[0].1))] + AsSlots(Bump(c[1..], k));
      } else {
        assert AsSlots(Bump(c, k)) == [(k, Count(c[0].1 + 1))] + AsSlots(c[1..]);
      }
    }
  }

  /** A lone key naming an inherited method is tallied as that method's
      source text followed by "1", never as the count 1. */
  lemma InheritedKeyMiscounted(k: string)
    requires k in PrototypeMethods
    ensures TallyKeysAsWritten([k]) == [(k, Concat(NativeSource(k) + "1"))]
    ensures TallyKeys([k]) == [(k, 1)]
    ensures TallyKeysAsWritten([k]) != AsSlots(TallyKeys([k]))
  {
  }

  /** A tool named "constructor", tallied alone, is recorded as a string
      rather than the count 1: the read finds the inherited `Object`
      constructor. */
  lemma ConstructorMiscounted(t: Tool)
    requires t.name == "constructor"
    ensures TallyAsWritten([t]) == [("constructor", Concat("function Object() { [native code] }1"))]
    ensures CountCategories([t]) == [("constructor", 1)]
  {
    ConstructorKeys(t);
    ConstructorTally(t);
    ConstructorSource();
  }

  /** The one-tool catalog has the single category "constructor". */
  lemma ConstructorKeys(t: Tool)
    requires t.name == "constructor"
    ensures CategoryList([t]) == ["constructor"]
  {
    ConstructorCategory(t.name);
  }

  /** Both tallies of a catalog whose only category is "constructor". */
  lemma ConstructorTally(t: Tool)
    requires CategoryList([t]) == ["constructor"]
    ensures TallyAsWritten([t]) == [("constructor", Concat(NativeSource("constructor") + "1"))]
    ensures CountCategories([t]) == [("constructor", 1)]
  {
    InheritedKeyMiscounted("constructor");
  }

  /** The text `Object + 1` evaluates to. */
  lemma ConstructorSource()
    ensures NativeSource("constructor") + "1" == "function Object() { [native code] }1"
  {
  }

  /** "constructor" matches no table key and has no separator, so it is its
      own category. */
  lemma ConstructorCategory(n: string)
    requires n == "constructor"
    ensures GetCategory(n) == "constructor"
  {
  }
}
