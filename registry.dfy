/** The animation registry of both engines: a JavaScript object used as a
    dictionary from pattern string to descriptor, kept as the sequence of its
    (key, descriptor) properties in `for ... in` order. Overwriting a key keeps
    its position; deleting and re-adding it moves it to the end. */
module Registry {
  import opened Common

  type Entries<D> = seq<(string, D)>

  /** Every key occurs once, as in an object's own properties. */
  predicate KeysDistinct<D>(reg: Entries<D>)
  {
    forall i, j :: 0 <= i < j < |reg| ==> reg[i].0 != reg[j].0
  }

  function Keys<D>(reg: Entries<D>): (ks: set<string>)
    ensures forall k :: k in ks <==> exists i :: 0 <= i < |reg| && reg[i].0 == k
  {
    set i | 0 <= i < |reg| :: reg[i].0
  }

  /** The position of key `k`, if it is present. */
  function Position<D>(reg: Entries<D>, k: string): (r: Option<nat>)
    ensures r.Some? ==> r.value < |reg| && reg[r.value].0 == k
    ensures r.None? <==> k !in Keys(reg)
  {
    if |reg| == 0 then None
    else if reg[|reg| - 1].0 == k then Some(|reg| - 1)
    else Position(reg[..|reg| - 1], k)
  }

  /** `animations[k]`, with `None` for `undefined`. */
  function Lookup<D>(reg: Entries<D>, k: string): (r: Option<D>)
    requires KeysDistinct(reg)
    ensures r.None? <==> k !in Keys(reg)
    ensures forall i :: 0 <= i < |reg| && reg[i].0 == k ==> r == Some(reg[i].1)
  {
    match Position(reg, k)
    case None => None
    case Some(i) => Some(reg[i].1)
  }

  /** `animations[k] = d`. */
  function Put<D>(reg: Entries<D>, k: string, d: D): (r: Entries<D>)
    ensures forall e :: e in r ==> e == (k, d) || e in reg
    ensures k in Keys(reg) ==> |r| == |reg| && r[Position(reg, k).value] == (k, d)
    ensures k in Keys(reg) ==> forall j :: 0 <= j < |reg| && j != Position(reg, k).value ==> r[j] == reg[j]
    ensures k !in Keys(reg) ==> r == reg + [(k, d)]
  {
    match Position(reg, k)
    case None => reg + [(k, d)]
    case Some(i) => reg[i := (k, d)]
  }

  /** `delete animations[k]`. */
  function Remove<D>(reg: Entries<D>, k: string): (r: Entries<D>)
    ensures forall e :: e in r ==> e in reg && e.0 != k
    ensures forall e :: e in reg && e.0 != k ==> e in r
    ensures k !in Keys(r)
    ensures |r| <= |reg|
  {
    if |reg| == 0 then []
    else if reg[0].0 == k then Remove(reg[1..], k)
    else [reg[0]] + Remove(reg[1..], k)
  }

  /** Deleting from a registry with one more entry at the end: the entries
      that stay keep their relative order. With `Remove([], k) == []` this
      fixes the result of every deletion. */
  lemma {:induction false} RemoveKeepsOrder<D>(reg: Entries<D>, e: (string, D), k: string)
    ensures Remove(reg + [e], k) == Remove(reg, k) + (if e.0 == k then [] else [e])
  {
    if |reg| == 0 {
      assert reg + [e] == [e];
      assert [e][1..] == [];
    } else {
      assert (reg + [e])[0] == reg[0];
      assert (reg + [e])[1..] == reg[1..] + [e];
      RemoveKeepsOrder(reg[1..], e, k);
    }
  }

  /** After `animations[k] = d`, key `k` gives `d` and every other key gives
      what it gave before; no key appears or disappears but `k`. */
  lemma PutLookup<D>(reg: Entries<D>, k: string, d: D)
    requires KeysDistinct(reg)
    ensures KeysDistinct(Put(reg, k, d))
    ensures Keys(Put(reg, k, d)) == Keys(reg) + {k}
    ensures Lookup(Put(reg, k, d), k) == Some(d)
    ensures forall k' :: k' != k ==> Lookup(Put(reg, k, d), k') == Lookup(reg, k')
  {
    var r := Put(reg, k, d);
    if k in Keys(reg) {
      var p := Position(reg, k).value;
      assert forall i :: 0 <= i < |r| ==> r[i].0 == reg[i].0;
      assert Keys(r) == Keys(reg);
    } else {
      assert forall i :: 0 <= i < |reg| ==> r[i] == reg[i];
      assert r[|reg|] == (k, d);
    }
    forall k' | k' != k
      ensures Lookup(r, k') == Lookup(reg, k')
    {
      if k' in Keys(reg) {
        var p := Position(reg, k').value;
        assert r[p] == reg[p];
      }
    }
  }

  /** Deleting keeps the keys distinct. */
  lemma {:induction false} RemoveKeepsDistinct<D>(reg: Entries<D>, k: string)
    requires KeysDistinct(reg)
    ensures KeysDistinct(Remove(reg, k))
  {
    if |reg| > 0 {
      var t := reg[1..];
      assert KeysDistinct(t);
      RemoveKeepsDistinct(t, k);
      if reg[0].0 != k {
        var r := Remove(reg, k);
        assert r == [reg[0]] + Remove(t, k);
        forall j | 1 <= j < |r| ensures r[0].0 != r[j].0 {
          assert r[j] in t;
        }
      }
    }
  }

  /** Deleting an absent key changes nothing. */
  lemma {:induction false} RemoveAbsent<D>(reg: Entries<D>, k: string)
    requires k !in Keys(reg)
    ensures Remove(reg, k) == reg
  {
    if |reg| > 0 {
      assert reg[0].0 != k;
      assert Keys(reg[1..]) <= Keys(reg);
      RemoveAbsent(reg[1..], k);
      assert reg == [reg[0]] + reg[1..];
    }
  }

  /** A key's descriptor is found by the entry it belongs to. */
  lemma LookupEntry<D>(reg: Entries<D>, e: (string, D))
    requires KeysDistinct(reg) && e in reg
    ensures Lookup(reg, e.0) == Some(e.1)
  {
    var i :| 0 <= i < |reg| && reg[i] == e;
  }

  /** After `delete animations[k]`, key `k` gives `undefined`, every other
      key gives what it gave before, and no other key disappears. Deleting
      an absent key changes nothing. */
  lemma RemoveLookup<D>(reg: Entries<D>, k: string)
    requires KeysDistinct(reg)
    ensures KeysDistinct(Remove(reg, k))
    ensures Keys(Remove(reg, k)) == Keys(reg) - {k}
    ensures Lookup(Remove(reg, k), k).None?
    ensures forall k' :: k' != k ==> Lookup(Remove(reg, k), k') == Lookup(reg, k')
    ensures k !in Keys(reg) ==> Remove(reg, k) == reg
  {
    var r := Remove(reg, k);
    RemoveKeepsDistinct(reg, k);
    forall k' | k' != k
      ensures Lookup(r, k') == Lookup(reg, k')
      ensures k' in Keys(r) <==> k' in Keys(reg)
    {
      if k' in Keys(reg) {
        var p := Position(reg, k').value;
        LookupEntry(reg, reg[p]);
        assert reg[p] in r;
        LookupEntry(r, reg[p]);
      }
    }
    assert Keys(r) == Keys(reg) - {k};
    if k !in Keys(reg) {
      RemoveAbsent(reg, k);
    }
  }

  /** Deleting a key and adding it again moves it to the end of the
      iteration order. */
  lemma ReAddMovesToEnd<D>(reg: Entries<D>, k: string, d: D)
    requires KeysDistinct(reg)
    ensures var r := Put(Remove(reg, k), k, d); |r| > 0 && r[|r| - 1] == (k, d)
  {
    RemoveLookup(reg, k);
  }

  /** The index of the first entry, in iteration order, whose pattern
      matches `path` under the regular-expression test `test`. */
  function FirstMatch<D>(reg: Entries<D>, test: (string, string) -> bool, path: string, i: nat): (r: Option<nat>)
    requires i <= |reg|
    decreases |reg| - i
    ensures r.Some? ==> i <= r.value < |reg| && test(reg[r.value].0, path)
    ensures r.Some? ==> forall j :: i <= j < r.value ==> !test(reg[j].0, path)
    ensures r.None? <==> forall j :: i <= j < |reg| ==> !test(reg[j].0, path)
  {
    if i == |reg| then None
    else if test(reg[i].0, path) then Some(i)
    else FirstMatch(reg, test, path, i + 1)
  }
}
