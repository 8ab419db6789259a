/** The listener table of a Node event emitter: per event name, the
    listeners in registration order, duplicates allowed. `addListener`
    appends; `removeListener` takes out the most recently added occurrence
    and drops the name once its list is empty, so no name maps to an empty
    list. */
module Registry {

  function Get<T>(reg: map<string, seq<T>>, name: string): seq<T>
  {
    if name in reg then reg[name] else []
  }

  ghost predicate NoEmptyLists<T>(reg: map<string, seq<T>>)
  {
    forall name :: name in reg ==> reg[name] != []
  }

  /** Position of the last occurrence of `x` in `s`. */
  function LastIndex<T(==)>(s: seq<T>, x: T): (i: nat)
    requires x in s
    ensures i < |s| && s[i] == x && x !in s[i + 1..]
  {
    if s[|s| - 1] == x then |s| - 1
    else
      assert x in s[..|s| - 1];
      var i := LastIndex(s[..|s| - 1], x);
      assert s[i + 1..] == s[..|s| - 1][i + 1..] + [s[|s| - 1]];
      i
  }

  /** `s` with its last occurrence of `x` taken out. */
  function RemoveLast<T(==)>(s: seq<T>, x: T): (r: seq<T>)
    ensures x !in s ==> r == s
    ensures x in s ==> |r| == |s| - 1
    ensures multiset(r) == multiset(s) - multiset{x}
  {
    if x in s then
      var i := LastIndex(s, x);
      assert s == s[..i] + [x] + s[i + 1..];
      s[..i] + s[i + 1..]
    else s
  }

  /** The occurrence `RemoveLast` takes out is the last one, and the other
      elements keep their order. */
  lemma RemoveLastTakesLast<T>(s: seq<T>, x: T)
    requires x in s
    ensures exists i :: 0 <= i < |s| && s[i] == x && x !in s[i + 1..] && RemoveLast(s, x) == s[..i] + s[i + 1..]
  {
    var i := LastIndex(s, x);
    assert RemoveLast(s, x) == s[..i] + s[i + 1..];
  }

  /** `addListener(name, x)`. */
  function Attach<T>(reg: map<string, seq<T>>, name: string, x: T): (r: map<string, seq<T>>)
    ensures NoEmptyLists(reg) ==> NoEmptyLists(r)
    ensures Get(r, name) == Get(reg, name) + [x]
    ensures r.Keys == reg.Keys + {name}
    ensures forall n :: n != name && n in reg ==> r[n] == reg[n]
  {
    reg[name := Get(reg, name) + [x]]
  }

  /** `removeListener(name, x)`. */
  function Detach<T(==)>(reg: map<string, seq<T>>, name: string, x: T): (r: map<string, seq<T>>)
    ensures NoEmptyLists(reg) ==> NoEmptyLists(r)
    ensures Get(r, name) == RemoveLast(Get(reg, name), x)
    ensures r.Keys <= reg.Keys
    ensures forall n :: n != name && n in reg ==> n in r && r[n] == reg[n]
    ensures x !in Get(reg, name) && NoEmptyLists(reg) ==> r == reg
  {
    if name !in reg then reg
    else
      var rest := RemoveLast(reg[name], x);
      if rest == [] then reg - {name} else reg[name := rest]
  }

  /** `listenerCount(name)`. */
  function Count<T>(reg: map<string, seq<T>>, name: string): (n: nat)
    ensures NoEmptyLists(reg) ==> (n == 0 <==> name !in reg)
  {
    |Get(reg, name)|
  }

  /** Every `addListener` counts once, duplicates included. */
  lemma AttachCounts<T>(reg: map<string, seq<T>>, name: string, x: T, other: string)
    ensures Count(Attach(reg, name, x), name) == Count(reg, name) + 1
    ensures other != name ==> Count(Attach(reg, name, x), other) == Count(reg, other)
  {
  }

  /** A `removeListener` of a registered listener takes off exactly one
      registration; of anything else, none. */
  lemma DetachCounts<T>(reg: map<string, seq<T>>, name: string, x: T, other: string)
    ensures Count(Detach(reg, name, x), name) == Count(reg, name) - (if x in Get(reg, name) then 1 else 0)
    ensures other != name && NoEmptyLists(reg) ==> Count(Detach(reg, name, x), other) == Count(reg, other)
  {
  }

  /** Removing what was just added gives back the table before it. */
  lemma {:induction false} DetachUndoesAttach<T>(reg: map<string, seq<T>>, name: string, x: T)
    requires NoEmptyLists(reg)
    ensures Detach(Attach(reg, name, x), name, x) == reg
  {
    var before := Get(reg, name);
    RemoveLastOfAppend(before, x);
    if name in reg {
      assert reg[name := before + [x]][name := before] == reg;
    } else {
      assert reg[name := before + [x]] - {name} == reg;
    }
  }

  lemma RemoveLastOfAppend<T>(s: seq<T>, x: T)
    ensures RemoveLast(s + [x], x) == s
  {
    assert LastIndex(s + [x], x) == |s|;
    assert (s + [x])[..|s|] == s;
  }
}
