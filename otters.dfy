/**
 * The runtime object: builds the effects a parsed board configuration
 * declares, the graph that connects them and the global parameter
 * indices, and runs one block of audio through the connections.
 */
module Otters {
  import opened Wrappers
  import opened Conf
  import opened Context
  import opened Effects
  import opened Factory
  import opened Param
  import opened RingBuf
  import opened BufRw
  import opened DelayBuf
  import opened Bypass

  /* ----------------------------------------------------- effect creation */

  /** `IdentifiedEffect`: the ordinal, the built effect and its enable flag. */
  datatype IdentifiedEffect = IdentifiedEffect(ordinal: nat, unit: EffectUnit, enabled: bool)

  /** `LoadedEffects`: bind name to identified effect. */
  type LoadedEffects = map<string, IdentifiedEffect>

  /** What creation records for a bind name: its ordinal, its constructor and its enable flag. */
  datatype Slot = Slot(ordinal: nat, maker: Maker, enabled: bool)

  /** The state of `create_effect_units` after some declarations. */
  datatype Assigned = Assigned(slots: map<string, Slot>, next: nat, errors: seq<string>)

  /** The message recorded for an effect name no family registers. */
  function NoSuchEffectUnit(effectName: string): string
  {
    "No such effect unit " + effectName
  }

  /**
   * `create_effect_units` on the declarations: a declaration whose effect
   * is found takes the next ordinal under its bind name, replacing any
   * earlier entry of that name; one that is not found adds an error.
   */
  function Assign(exts: seq<FactoryExtension>, decls: seq<BoardEffectDeclaration>): Assigned
  {
    if |decls| == 0 then Assigned(map[], 0, [])
    else AssignOne(exts, Assign(exts, decls[..|decls| - 1]), decls[|decls| - 1])
  }

  /** One declaration of `create_effect_units`. */
  function AssignOne(exts: seq<FactoryExtension>, a: Assigned, d: BoardEffectDeclaration): Assigned
  {
    match Lookup(exts, d.effectName)
    case Some(m) => Assigned(a.slots[d.bindName := Slot(a.next, m, d.enabled)], a.next + 1, a.errors)
    case None => Assigned(a.slots, a.next, a.errors + [NoSuchEffectUnit(d.effectName)])
  }

  /** Every declared effect name is registered by some family. */
  predicate AllResolve(exts: seq<FactoryExtension>, decls: seq<BoardEffectDeclaration>)
  {
    forall i :: 0 <= i < |decls| ==> Lookup(exts, decls[i].effectName).Some?
  }

  /** No two declarations share a bind name. */
  predicate DistinctBindNames(decls: seq<BoardEffectDeclaration>)
  {
    forall i, j :: 0 <= i < j < |decls| ==> decls[i].bindName != decls[j].bindName
  }

  /**
   * Creation fails exactly when some effect name is unknown, with one
   * message per unknown name, in declaration order; the ordinal counter
   * counts the found ones, and every ordinal handed out is below it and
   * held by one bind name only.
   */
  lemma {:induction false} AssignSpec(exts: seq<FactoryExtension>, decls: seq<BoardEffectDeclaration>)
    ensures Assign(exts, decls).errors == [] <==> AllResolve(exts, decls)
    ensures AllResolve(exts, decls) ==> Assign(exts, decls).next == |decls|
    ensures forall b :: b in Assign(exts, decls).slots ==> Assign(exts, decls).slots[b].ordinal < Assign(exts, decls).next
    ensures forall b, c :: b in Assign(exts, decls).slots && c in Assign(exts, decls).slots && b != c ==>
      Assign(exts, decls).slots[b].ordinal != Assign(exts, decls).slots[c].ordinal
  {
    if |decls| > 0 {
      var front := decls[..|decls| - 1];
      AssignSpec(exts, front);
      assert forall i :: 0 <= i < |front| ==> front[i] == decls[i];
      if AllResolve(exts, decls) {
        assert Lookup(exts, decls[|decls| - 1].effectName).Some?;
      }
    }
  }

  /** The bind names of the declarations, in order. */
  function BindNames(decls: seq<BoardEffectDeclaration>): (r: seq<string>)
    ensures |r| == |decls| && forall i :: 0 <= i < |decls| ==> r[i] == decls[i].bindName
  {
    seq(|decls|, i requires 0 <= i < |decls| => decls[i].bindName)
  }

  /** Only declared bind names receive an entry. */
  lemma {:induction false} AssignKeys(exts: seq<FactoryExtension>, decls: seq<BoardEffectDeclaration>)
    ensures forall b :: b in Assign(exts, decls).slots ==> b in BindNames(decls)
  {
    if |decls| > 0 {
      var front := decls[..|decls| - 1];
      AssignKeys(exts, front);
      assert forall b :: b in BindNames(front) ==> b in BindNames(decls) by {
        assert BindNames(front) == BindNames(decls)[..|decls| - 1];
      }
    }
  }

  /**
   * With distinct bind names and every name found, the declaration at
   * position `i` holds ordinal `i`, with its own constructor and flag, and
   * there are as many entries as declarations.
   */
  lemma {:induction false} AssignOrdinals(exts: seq<FactoryExtension>, decls: seq<BoardEffectDeclaration>)
    requires AllResolve(exts, decls) && DistinctBindNames(decls)
    ensures |Assign(exts, decls).slots| == |decls|
    ensures forall i :: 0 <= i < |decls| ==>
      decls[i].bindName in Assign(exts, decls).slots &&
      Assign(exts, decls).slots[decls[i].bindName] ==
        Slot(i, Lookup(exts, decls[i].effectName).value, decls[i].enabled)
  {
    if |decls| > 0 {
      var n := |decls| - 1;
      var front := decls[..n];
      var d := decls[n];
      assert AllResolve(exts, front) && DistinctBindNames(front) by {
        assert forall i :: 0 <= i < |front| ==> front[i] == decls[i];
      }
      AssignOrdinals(exts, front);
      var a := Assign(exts, front);
      assert a.next == n by {
        AssignSpec(exts, front);
      }
      assert d.bindName !in a.slots by {
        AssignKeys(exts, front);
        assert forall i :: 0 <= i < n ==> BindNames(front)[i] != d.bindName;
      }
      AssignFreshName(exts, a, d);
      forall i | 0 <= i < n
        ensures decls[i].bindName in Assign(exts, decls).slots
        ensures Assign(exts, decls).slots[decls[i].bindName] ==
          Slot(i, Lookup(exts, decls[i].effectName).value, decls[i].enabled)
      {
        assert front[i] == decls[i] && decls[i].bindName != d.bindName;
      }
    }
  }

  /** A found declaration under a new bind name adds one entry, with the next ordinal. */
  lemma AssignFreshName(exts: seq<FactoryExtension>, a: Assigned, d: BoardEffectDeclaration)
    requires Lookup(exts, d.effectName).Some? && d.bindName !in a.slots
    ensures AssignOne(exts, a, d).slots == a.slots[d.bindName := Slot(a.next, Lookup(exts, d.effectName).value, d.enabled)]
    ensures |AssignOne(exts, a, d).slots| == |a.slots| + 1
  {
  }

  /** The delay lines' owners among the loaded effects, readable without the heap. */
  function Lines(effects: LoadedEffects): set<object>
  {
    set b | b in effects && effects[b].unit.DelayUnit? :: effects[b].unit.delay.delayBuf
  }

  /** Every object the loaded effects own. */
  function Objects(effects: LoadedEffects): set<object>
    reads Lines(effects)
  {
    set b, o | b in effects && o in Repr(effects[b].unit) :: o
  }

  /** The objects of the loaded effects that setting a parameter may change, readable without the heap. */
  function Owners(effects: LoadedEffects): set<object>
  {
    set b, o | b in effects && o in Settings(effects[b].unit) :: o
  }

  /** The loaded effects carry exactly the slots' bind names, ordinals, constructors and flags. */
  predicate Matches(effects: LoadedEffects, slots: map<string, Slot>)
  {
    && effects.Keys == slots.Keys
    && forall b :: b in effects ==>
         && effects[b].ordinal == slots[b].ordinal
         && effects[b].unit.Kind() == slots[b].maker
         && effects[b].enabled == slots[b].enabled
  }

  /** Every loaded effect is as its constructor leaves it for the configuration. */
  ghost predicate Born(effects: LoadedEffects, ac: AudioConfig, foreign: ForeignInfo)
    reads Lines(effects), Objects(effects)
  {
    forall b :: b in effects ==>
      Advertised(effects[b].unit) == InfoFor(effects[b].unit.Kind(), foreign) && Newborn(effects[b].unit, ac)
  }

  /** No two loaded effects share an object. */
  ghost predicate Disjoint(effects: LoadedEffects)
    reads Lines(effects)
  {
    forall b, c :: b in effects && c in effects && b != c ==> Repr(effects[b].unit) !! Repr(effects[c].unit)
  }

  /**
   * The loaded effects are as their constructors leave them, share no
   * object, and all their objects lie in `fp`.
   */
  ghost predicate Held(fp: set<object>, effects: LoadedEffects, ac: AudioConfig, foreign: ForeignInfo)
    reads fp
  {
    Lines(effects) <= fp && Objects(effects) <= fp && Born(effects, ac, foreign) && Disjoint(effects)
  }

  /** Adding an effect whose objects are new to the others keeps the effects disjoint. */
  lemma DisjointAdd(effects: LoadedEffects, b: string, e: IdentifiedEffect)
    requires Disjoint(effects) && Repr(e.unit) !! Objects(effects)
    ensures Disjoint(effects[b := e])
  {
    var m := effects[b := e];
    forall c, d | c in m && d in m && c != d
      ensures Repr(m[c].unit) !! Repr(m[d].unit)
    {
      if c == b {
        assert forall o :: o in Repr(m[d].unit) ==> o in Objects(effects);
      } else if d == b {
        assert forall o :: o in Repr(m[c].unit) ==> o in Objects(effects);
      }
    }
  }
  /** Adding a newly built effect keeps every effect as its constructor left it. */
  lemma BornAdd(effects: LoadedEffects, b: string, e: IdentifiedEffect, ac: AudioConfig, foreign: ForeignInfo)
    requires Born(effects, ac, foreign)
    requires Advertised(e.unit) == InfoFor(e.unit.Kind(), foreign) && Newborn(e.unit, ac)
    ensures Born(effects[b := e], ac, foreign)
  {
  }

  /** What the loop of `create_effect_units` keeps: its variables agree with `Assign`. */
  ghost predicate Tracks(a: Assigned, result: LoadedEffects, errors: seq<string>, ordinal: nat,
                         ac: AudioConfig, foreign: ForeignInfo)
    reads Lines(result), Objects(result)
  {
    && a.errors == errors && a.next == ordinal
    && Matches(result, a.slots) && Born(result, ac, foreign) && Disjoint(result)
  }

  /**
   * `create_effect_units`: builds each declared effect through the
   * factory, in declaration order, as `Assign` says; any unknown name
   * fails the whole step with the list of messages.
   */
  method CreateEffectUnits(factory: EffectFactory, decls: seq<BoardEffectDeclaration>)
    returns (r: Result<LoadedEffects, seq<string>>)
    ensures var a := Assign(factory.factoryExts, decls);
      && (r.Err? <==> a.errors != [])
      && (r.Err? ==> r.error == a.errors)
      && (r.Ok? ==> Matches(r.value, a.slots) && Born(r.value, factory.audioConfig, factory.foreign))
    ensures r.Ok? ==> Disjoint(r.value) && fresh(Owners(r.value))
  {
    var result: LoadedEffects := map[];
    var errors: seq<string> := [];
    var currentOrdinal := 0;
    for i := 0 to |decls|
      invariant Tracks(Assign(factory.factoryExts, decls[..i]), result, errors, currentOrdinal,
                       factory.audioConfig, factory.foreign)
      invariant fresh(Owners(result))
    {
      assert decls[..i + 1][..i] == decls[..i];
      result, errors, currentOrdinal :=
        CreateOne(factory, decls[i], result, errors, currentOrdinal, Assign(factory.factoryExts, decls[..i]));
    }
    assert decls[..|decls|] == decls;
    if |errors| > 0 {
      return Err(errors);
    }
    return Ok(result);
  }

  /** One iteration of `create_effect_units`: builds the declared effect, or records the unknown name. */
  method CreateOne(factory: EffectFactory, d: BoardEffectDeclaration, result: LoadedEffects, errors: seq<string>,
                   ordinal: nat, ghost a: Assigned)
    returns (result': LoadedEffects, errors': seq<string>, ordinal': nat)
    requires Tracks(a, result, errors, ordinal, factory.audioConfig, factory.foreign)
    ensures Tracks(AssignOne(factory.factoryExts, a, d), result', errors', ordinal', factory.audioConfig, factory.foreign)
    ensures fresh(Owners(result') - Owners(result))
  {
    var unit := Build(factory, d.effectName, Objects(result));
    RecordTracks(factory.factoryExts, a, result, errors, ordinal, factory.audioConfig, factory.foreign, d, unit);
    if unit.Some? {
      return result[d.bindName := IdentifiedEffect(ordinal, unit.value, d.enabled)], errors, ordinal + 1;
    } else {
      return result, errors + [NoSuchEffectUnit(d.effectName)], ordinal;
    }
  }

  /** What `create_effect_unit` promises about one lookup, its result sharing nothing with `avoid`. */
  ghost predicate Built(exts: seq<FactoryExtension>, ac: AudioConfig, foreign: ForeignInfo, name: string,
                        unit: Option<EffectUnit>, avoid: set<object>)
    reads if unit.Some? then Repr(unit.value) else {}
  {
    && (unit.None? <==> Lookup(exts, name).None?)
    && (unit.Some? ==>
          && Lookup(exts, name) == Some(unit.value.Kind())
          && Advertised(unit.value) == InfoFor(unit.value.Kind(), foreign)
          && Newborn(unit.value, ac) && Repr(unit.value) !! avoid)
  }

  /** `create_effect_unit` as called from the loop: a new effect shares no object with those built before. */
  method Build(factory: EffectFactory, name: string, ghost avoid: set<object>) returns (unit: Option<EffectUnit>)
    ensures Built(factory.factoryExts, factory.audioConfig, factory.foreign, name, unit, avoid)
    ensures unit.Some? ==> fresh(Settings(unit.value))
  {
    unit := factory.CreateEffectUnit(name);
  }

  /** The variables of `create_effect_units` after one declaration still agree with `Assign`. */
  lemma RecordTracks(exts: seq<FactoryExtension>, a: Assigned, result: LoadedEffects, errors: seq<string>, ordinal: nat,
                     ac: AudioConfig, foreign: ForeignInfo, d: BoardEffectDeclaration, unit: Option<EffectUnit>)
    requires Tracks(a, result, errors, ordinal, ac, foreign)
    requires Built(exts, ac, foreign, d.effectName, unit, Objects(result))
    ensures unit.Some? ==>
      var e := IdentifiedEffect(ordinal, unit.value, d.enabled);
      && Tracks(AssignOne(exts, a, d), result[d.bindName := e], errors, ordinal + 1, ac, foreign)
      && Owners(result[d.bindName := e]) <= Owners(result) + Settings(unit.value)
    ensures unit.None? ==> Tracks(AssignOne(exts, a, d), result, errors + [NoSuchEffectUnit(d.effectName)], ordinal, ac, foreign)
  {
    if unit.Some? {
      var e := IdentifiedEffect(ordinal, unit.value, d.enabled);
      TracksAdd(exts, a, result, errors, ordinal, ac, foreign, d, e);
      OwnersAdd(result, d.bindName, e);
    } else {
      TracksSkip(exts, a, result, errors, ordinal, ac, foreign, d);
    }
  }

  /** Adding an effect adds at most its own objects. */
  lemma OwnersAdd(effects: LoadedEffects, b: string, e: IdentifiedEffect)
    ensures Owners(effects[b := e]) <= Owners(effects) + Settings(e.unit)
  {
    forall o | o in Owners(effects[b := e])
      ensures o in Owners(effects) + Settings(e.unit)
    {
      var c :| c in effects[b := e] && o in Settings(effects[b := e][c].unit);
      if c != b {
        assert c in effects && o in Settings(effects[c].unit);
      }
    }
  }

  /** A declaration whose effect is not found only adds its message. */
  lemma TracksSkip(exts: seq<FactoryExtension>, a: Assigned, result: LoadedEffects, errors: seq<string>, ordinal: nat,
                   ac: AudioConfig, foreign: ForeignInfo, d: BoardEffectDeclaration)
    requires Tracks(a, result, errors, ordinal, ac, foreign)
    requires Lookup(exts, d.effectName).None?
    ensures Tracks(AssignOne(exts, a, d), result, errors + [NoSuchEffectUnit(d.effectName)], ordinal, ac, foreign)
  {
  }

  /** A found declaration adds its new effect under its bind name with the next ordinal. */
  lemma TracksAdd(exts: seq<FactoryExtension>, a: Assigned, result: LoadedEffects, errors: seq<string>, ordinal: nat,
                  ac: AudioConfig, foreign: ForeignInfo, d: BoardEffectDeclaration, e: IdentifiedEffect)
    requires Tracks(a, result, errors, ordinal, ac, foreign)
    requires Lookup(exts, d.effectName) == Some(e.unit.Kind())
    requires e.ordinal == ordinal && e.enabled == d.enabled
    requires Advertised(e.unit) == InfoFor(e.unit.Kind(), foreign) && Newborn(e.unit, ac)
    requires Repr(e.unit) !! Objects(result)
    ensures Tracks(AssignOne(exts, a, d), result[d.bindName := e], errors, ordinal + 1, ac, foreign)
  {
    DisjointAdd(result, d.bindName, e);
    BornAdd(result, d.bindName, e, ac, foreign);
  }

  /* ------------------------------------------------ effects in ordinal order */

  /** No name occurs twice. */
  predicate Distinct(names: seq<string>)
  {
    forall i, j :: 0 <= i < j < |names| ==> names[i] != names[j]
  }

  /** A sequence has no repeats exactly when its multiset counts every name at most once. */
  lemma {:induction false} DistinctCounts(names: seq<string>)
    ensures Distinct(names) <==> forall x :: multiset(names)[x] <= 1
  {
    if |names| > 0 {
      var front := names[..|names| - 1];
      var last := names[|names| - 1];
      DistinctCounts(front);
      assert names == front + [last];
      assert multiset(names) == multiset(front) + multiset{last};
      if Distinct(names) {
        assert forall i :: 0 <= i < |front| ==> front[i] != last;
        assert last !in multiset(front);
      } else {
        var i, j :| 0 <= i < j < |names| && names[i] == names[j];
        if j < |names| - 1 {
          assert front[i] == front[j];
          var x :| multiset(front)[x] > 1;
          assert multiset(names)[x] > 1;
        } else {
          assert front[i] == last;
          assert multiset(names)[last] >= 2;
        }
      }
    }
  }

  /** Reordering keeps a sequence free of repeats. */
  lemma DistinctPermutation(s: seq<string>, t: seq<string>)
    requires Distinct(s) && multiset(s) == multiset(t)
    ensures Distinct(t)
  {
    DistinctCounts(s);
    DistinctCounts(t);
  }

  /** The ordinal of every loaded bind name. */
  function OrdinalsOf(effects: LoadedEffects): (ords: map<string, nat>)
    ensures ords.Keys == effects.Keys
  {
    map b | b in effects :: effects[b].ordinal
  }

  /** The names are ordered by ordinal, ties in any order. */
  predicate SortedBy(names: seq<string>, ords: map<string, nat>)
    requires forall x :: x in names ==> x in ords
  {
    forall i, j :: 0 <= i < j < |names| ==> ords[names[i]] <= ords[names[j]]
  }

  /** Inserts a name into an ordered sequence after every name whose ordinal is not larger. */
  function InsertByOrdinal(b: string, s: seq<string>, ords: map<string, nat>): (r: seq<string>)
    requires b in ords && (forall x :: x in s ==> x in ords)
    ensures multiset(r) == multiset(s) + multiset{b}
    ensures forall x :: x in r <==> x in s || x == b
  {
    if |s| == 0 then [b]
    else if ords[b] < ords[s[0]] then [b] + s
    else
      assert s == [s[0]] + s[1..];
      [s[0]] + InsertByOrdinal(b, s[1..], ords)
  }

  /** Inserting into an ordered sequence keeps it ordered. */
  lemma {:induction false} InsertSorted(b: string, s: seq<string>, ords: map<string, nat>)
    requires b in ords && (forall x :: x in s ==> x in ords) && SortedBy(s, ords)
    ensures SortedBy(InsertByOrdinal(b, s, ords), ords)
  {
    if |s| > 0 && ords[b] >= ords[s[0]] {
      InsertSorted(b, s[1..], ords);
      var rest := InsertByOrdinal(b, s[1..], ords);
      assert forall x :: x in rest ==> ords[s[0]] <= ords[x];
      assert forall i :: 0 <= i < |rest| ==> rest[i] in rest;
    }
  }

  /**
   * `sort_by` on the ordinals: a stable sort, written as an insertion
   * sort; the result is ordered and holds the same names.
   */
  function SortByOrdinal(s: seq<string>, ords: map<string, nat>): (r: seq<string>)
    requires forall x :: x in s ==> x in ords
    ensures multiset(r) == multiset(s)
    ensures forall x :: x in r <==> x in s
  {
    if |s| == 0 then []
    else
      var front := s[..|s| - 1];
      assert s == front + [s[|s| - 1]];
      assert forall x :: x in front ==> x in s;
      InsertByOrdinal(s[|s| - 1], SortByOrdinal(front, ords), ords)
  }

  /** The sort's result is ordered by ordinal. */
  lemma {:induction false} SortSorted(s: seq<string>, ords: map<string, nat>)
    requires forall x :: x in s ==> x in ords
    ensures SortedBy(SortByOrdinal(s, ords), ords)
  {
    if |s| > 0 {
      var front := s[..|s| - 1];
      SortSorted(front, ords);
      InsertSorted(s[|s| - 1], SortByOrdinal(front, ords), ords);
    }
  }

  /**
   * Ordinals that are all different, ordered, and all below the count of
   * names: each name's position is its ordinal.
   */
  lemma {:induction false} PositionIsOrdinal(names: seq<string>, ords: map<string, nat>)
    requires forall i :: 0 <= i < |names| ==> names[i] in ords && ords[names[i]] < |names|
    requires forall i, j :: 0 <= i < j < |names| ==> ords[names[i]] < ords[names[j]]
    ensures forall k :: 0 <= k < |names| ==> ords[names[k]] == k
  {
    forall k | 0 <= k < |names|
      ensures ords[names[k]] == k
    {
      AtLeastPosition(names, ords, k);
      AtMostPosition(names, ords, k);
    }
  }

  /** Strictly rising naturals: the one at position `k` is at least `k`. */
  lemma {:induction false} AtLeastPosition(names: seq<string>, ords: map<string, nat>, k: nat)
    requires k < |names| && forall i :: 0 <= i < |names| ==> names[i] in ords
    requires forall i, j :: 0 <= i < j < |names| ==> ords[names[i]] < ords[names[j]]
    ensures ords[names[k]] >= k
  {
    if k > 0 {
      AtLeastPosition(names, ords, k - 1);
    }
  }

  /** Strictly rising naturals below the length: the one at position `k` is at most `k`. */
  lemma {:induction false} AtMostPosition(names: seq<string>, ords: map<string, nat>, k: nat)
    requires k < |names| && forall i :: 0 <= i < |names| ==> names[i] in ords && ords[names[i]] < |names|
    requires forall i, j :: 0 <= i < j < |names| ==> ords[names[i]] < ords[names[j]]
    ensures ords[names[k]] <= k
    decreases |names| - k
  {
    if k < |names| - 1 {
      AtMostPosition(names, ords, k + 1);
    }
  }

  /** The loaded bind names in the map's iteration order, which the model leaves open. */
  method CollectNames(effects: LoadedEffects) returns (names: seq<string>)
    ensures Distinct(names) && |names| == |effects|
    ensures forall b :: b in names <==> b in effects
  {
    names := [];
    var todo := effects.Keys;
    while todo != {}
      invariant todo <= effects.Keys && Distinct(names)
      invariant forall b :: b in names <==> b in effects.Keys - todo
      invariant |names| + |todo| == |effects.Keys|
      decreases todo
    {
      var b :| b in todo;
      assert b !in names;
      names := names + [b];
      todo := todo - {b};
    }
  }

  /**
   * The first step of `effect_map_to_vec`: the loaded bind names, each
   * once, ordered by ordinal.
   */
  method OrderByOrdinal(effects: LoadedEffects) returns (order: seq<string>)
    ensures Distinct(order) && |order| == |effects| && (forall b :: b in order <==> b in effects)
    ensures SortedBy(order, OrdinalsOf(effects))
  {
    var names := CollectNames(effects);
    var ords := OrdinalsOf(effects);
    order := SortByOrdinal(names, ords);
    SortSorted(names, ords);
    DistinctPermutation(names, order);
    assert |multiset(order)| == |multiset(names)|;
  }

  /* ------------------------------------------------ global parameter indices */

  /** What each effect in `order` advertises. */
  function Infos(effects: LoadedEffects, order: seq<string>): (infos: seq<seq<AdvertisedParameter>>)
    requires forall b :: b in order ==> b in effects
    ensures |infos| == |order|
    ensures forall k :: 0 <= k < |order| ==> infos[k] == Advertised(effects[order[k]].unit)
  {
    seq(|order|, k requires 0 <= k < |order| => Advertised(effects[order[k]].unit))
  }

  /** The first global index of the effect at position `i`: the parameters of the effects before it. */
  function Offset(infos: seq<seq<AdvertisedParameter>>, i: nat): nat
    requires i <= |infos|
  {
    if i == 0 then 0 else Offset(infos, i - 1) + |infos[i - 1]|
  }

  /** The mappings of one effect: its position and each parameter index, in advertised order. */
  function EffectMappings(bindName: string, i: nat, count: nat): (ms: seq<EffectParameterMapping>)
    ensures |ms| == count && forall p :: 0 <= p < count ==> ms[p] == EffectParameterMapping(bindName, i, p)
  {
    seq(count, p requires 0 <= p < count => EffectParameterMapping(bindName, i, p))
  }

  /** The mappings `effect_map_to_vec` registers for the first `n` effects. */
  function AllMappings(binds: seq<string>, infos: seq<seq<AdvertisedParameter>>, n: nat): seq<EffectParameterMapping>
    requires |binds| == |infos| && n <= |infos|
  {
    if n == 0 then [] else AllMappings(binds, infos, n - 1) + EffectMappings(binds[n - 1], n - 1, |infos[n - 1]|)
  }

  /** The (name, global index) list of one effect whose first global index is `offset`. */
  function GlobList(info: seq<AdvertisedParameter>, offset: nat): (l: seq<ParamNameAndIndex>)
    ensures |l| == |info| && forall p :: 0 <= p < |info| ==> l[p] == (info[p].name, offset + p)
  {
    seq(|info|, p requires 0 <= p < |info| => (info[p].name, offset + p))
  }

  /** There are as many global indices as advertised parameters. */
  lemma {:induction false} AllMappingsLength(binds: seq<string>, infos: seq<seq<AdvertisedParameter>>, n: nat)
    requires |binds| == |infos| && n <= |infos|
    ensures |AllMappings(binds, infos, n)| == Offset(infos, n)
  {
    if n > 0 {
      AllMappingsLength(binds, infos, n - 1);
    }
  }

  /**
   * Global indices map back: the index of parameter `p` of the effect at
   * position `i`, its offset plus `p`, is handed out and maps to exactly
   * that position and parameter.
   */
  lemma {:induction false} AllMappingsAt(binds: seq<string>, infos: seq<seq<AdvertisedParameter>>, n: nat, i: nat, p: nat)
    requires |binds| == |infos| && i < n <= |infos| && p < |infos[i]|
    ensures Offset(infos, i) + p < |AllMappings(binds, infos, n)|
    ensures AllMappings(binds, infos, n)[Offset(infos, i) + p] == EffectParameterMapping(binds[i], i, p)
  {
    AllMappingsLength(binds, infos, n - 1);
    var front := AllMappings(binds, infos, n - 1);
    var last := EffectMappings(binds[n - 1], n - 1, |infos[n - 1]|);
    assert AllMappings(binds, infos, n) == front + last;
    if i < n - 1 {
      AllMappingsAt(binds, infos, n - 1, i, p);
    } else {
      assert (front + last)[Offset(infos, i) + p] == last[p];
    }
  }

  /**
   * The inner loop of `effect_map_to_vec`: one new global index per
   * advertised parameter, each listed with the parameter's name.
   */
  method RegisterParams(pm: ParameterMappingManager, bindName: string, i: nat, params: seq<AdvertisedParameter>)
    returns (globalIdxs: seq<ParamNameAndIndex>)
    modifies pm
    ensures pm.mappings == old(pm.mappings) + EffectMappings(bindName, i, |params|)
    ensures globalIdxs == GlobList(params, old(|pm.mappings|))
    ensures pm.bindNameToGlobIdxs == old(pm.bindNameToGlobIdxs) && pm.bindNameToEffectType == old(pm.bindNameToEffectType)
  {
    globalIdxs := [];
    for p := 0 to |params|
      invariant pm.mappings == old(pm.mappings) + EffectMappings(bindName, i, p)
      invariant globalIdxs == GlobList(params[..p], old(|pm.mappings|))
      invariant pm.bindNameToGlobIdxs == old(pm.bindNameToGlobIdxs) && pm.bindNameToEffectType == old(pm.bindNameToEffectType)
    {
      var g := pm.NewParameter(EffectParameterMapping(bindName, i, p));
      globalIdxs := globalIdxs + [(params[p].name, g)];
    }
    assert params[..|params|] == params;
  }

  /** The units of the first `n` effects in `order`. */
  function Units(effects: LoadedEffects, order: seq<string>, n: nat): (us: seq<EffectUnit>)
    requires n <= |order| && forall b :: b in order ==> b in effects
    ensures |us| == n && forall k :: 0 <= k < n ==> us[k] == effects[order[k]].unit
  {
    if n == 0 then [] else Units(effects, order, n - 1) + [effects[order[n - 1]].unit]
  }

  /** The enable flags of the first `n` effects in `order`. */
  function Flags(effects: LoadedEffects, order: seq<string>, n: nat): (fs: seq<bool>)
    requires n <= |order| && forall b :: b in order ==> b in effects
    ensures |fs| == n && forall k :: 0 <= k < n ==> fs[k] == effects[order[k]].enabled
  {
    if n == 0 then [] else Flags(effects, order, n - 1) + [effects[order[n - 1]].enabled]
  }

  /** The (name, index) lists recorded for the first `n` effects, later bind names overwriting earlier ones. */
  function GlobTable(order: seq<string>, infos: seq<seq<AdvertisedParameter>>, n: nat): map<string, seq<ParamNameAndIndex>>
    requires |order| == |infos| && n <= |order|
  {
    if n == 0 then map[]
    else GlobTable(order, infos, n - 1)[order[n - 1] := GlobList(infos[n - 1], Offset(infos, n - 1))]
  }

  /**
   * With bind names that do not repeat, the table holds exactly the first
   * `n` bind names, each with its own effect's list.
   */
  lemma GlobTableSpec(order: seq<string>, infos: seq<seq<AdvertisedParameter>>, n: nat)
    requires |order| == |infos| && n <= |order| && Distinct(order)
    ensures forall b :: b in GlobTable(order, infos, n) <==> b in order[..n]
    ensures forall k :: 0 <= k < n ==>
      order[k] in GlobTable(order, infos, n) && GlobTable(order, infos, n)[order[k]] == GlobList(infos[k], Offset(infos, k))
  {
    GlobTableKeys(order, infos, n);
    forall k | 0 <= k < n
      ensures order[k] in GlobTable(order, infos, n)
      ensures GlobTable(order, infos, n)[order[k]] == GlobList(infos[k], Offset(infos, k))
    {
      GlobTableAt(order, infos, n, k);
    }
  }

  /** The table holds exactly the first `n` bind names. */
  lemma {:induction false} GlobTableKeys(order: seq<string>, infos: seq<seq<AdvertisedParameter>>, n: nat)
    requires |order| == |infos| && n <= |order|
    ensures forall b :: b in GlobTable(order, infos, n) <==> b in order[..n]
  {
    if n > 0 {
      GlobTableKeys(order, infos, n - 1);
      assert order[..n] == order[..n - 1] + [order[n - 1]];
    }
  }

  /** With bind names that do not repeat, the `k`th one keeps its own effect's list. */
  lemma {:induction false} GlobTableAt(order: seq<string>, infos: seq<seq<AdvertisedParameter>>, n: nat, k: nat)
    requires |order| == |infos| && k < n <= |order| && Distinct(order)
    ensures order[k] in GlobTable(order, infos, n)
    ensures GlobTable(order, infos, n)[order[k]] == GlobList(infos[k], Offset(infos, k))
  {
    if k < n - 1 {
      GlobTableAt(order, infos, n - 1, k);
      assert order[k] != order[n - 1];
    }
  }

  /**
   * `effect_map_to_vec`: orders the loaded effects by ordinal (`order`
   * holds their bind names), returns the effects and their enable flags in
   * that order, and a new manager holding their global parameter indices,
   * effect by effect, and each bind name's (name, index) list
   * (`GlobTableSpec` says what the table holds).
   */
  method EffectMapToVec(effects: LoadedEffects)
    returns (effs: seq<EffectUnit>, enabled: seq<bool>, pm: ParameterMappingManager, ghost order: seq<string>)
    ensures Distinct(order) && |order| == |effects| && (forall b :: b in order <==> b in effects)
    ensures SortedBy(order, OrdinalsOf(effects))
    ensures effs == Units(effects, order, |order|) && enabled == Flags(effects, order, |order|)
    ensures fresh(pm)
    ensures pm.mappings == AllMappings(order, Infos(effects, order), |order|)
    ensures pm.bindNameToGlobIdxs == GlobTable(order, Infos(effects, order), |order|)
    ensures pm.bindNameToEffectType == map[]
  {
    var intermediate := OrderByOrdinal(effects);
    ghost var infos := Infos(effects, intermediate);
    pm := new ParameterMappingManager.New();
    effs := [];
    enabled := [];
    for i := 0 to |intermediate|
      invariant effs == Units(effects, intermediate, i) && enabled == Flags(effects, intermediate, i)
      invariant pm.mappings == AllMappings(intermediate, infos, i)
      invariant pm.bindNameToGlobIdxs == GlobTable(intermediate, infos, i)
      invariant pm.bindNameToEffectType == map[]
    {
      var unit, flag := RegisterEffect(pm, effects, intermediate, infos, i);
      effs := effs + [unit];
      enabled := enabled + [flag];
    }
    order := intermediate;
  }

  /**
   * One step of `effect_map_to_vec`: registers the parameters of the
   * effect at position `i` and records its bind name's list.
   */
  method RegisterEffect(pm: ParameterMappingManager, effects: LoadedEffects, order: seq<string>,
                        ghost infos: seq<seq<AdvertisedParameter>>, i: nat)
    returns (unit: EffectUnit, flag: bool)
    requires i < |order| && (forall b :: b in order ==> b in effects) && infos == Infos(effects, order)
    requires pm.mappings == AllMappings(order, infos, i) && pm.bindNameToGlobIdxs == GlobTable(order, infos, i)
    modifies pm
    ensures unit == effects[order[i]].unit && flag == effects[order[i]].enabled
    ensures pm.mappings == AllMappings(order, infos, i + 1) && pm.bindNameToGlobIdxs == GlobTable(order, infos, i + 1)
    ensures pm.bindNameToEffectType == old(pm.bindNameToEffectType)
  {
    var bindName := order[i];
    var ie := effects[bindName];
    var params := Advertised(ie.unit);
    AllMappingsLength(order, infos, i);
    var globalIdxs := RegisterParams(pm, bindName, i, params);
    pm.SetGlobalIdxsForBindName(bindName, globalIdxs);
    unit, flag := ie.unit, ie.enabled;
  }

  /* ------------------------------------------------ initial configuration */

  /**
   * The name-to-index map `set_initial_config_on_effects` fills from a
   * (name, index) list, inserting in list order: a repeated name keeps the
   * later index.
   */
  function NameMap(l: seq<ParamNameAndIndex>): map<string, nat>
  {
    if |l| == 0 then map[] else NameMap(l[..|l| - 1])[l[|l| - 1].0 := l[|l| - 1].1]
  }

  /** The index of the last advertised parameter with the given name, if any. */
  function TargetOf(info: seq<AdvertisedParameter>, name: string): (r: Option<nat>)
    ensures r.Some? ==> r.value < |info| && info[r.value].name == name
    ensures r.Some? ==> forall q :: r.value < q < |info| ==> info[q].name != name
    ensures r.None? <==> forall q :: 0 <= q < |info| ==> info[q].name != name
  {
    if |info| == 0 then None
    else if info[|info| - 1].name == name then Some(|info| - 1)
    else TargetOf(info[..|info| - 1], name)
  }

  /**
   * The map filled from an effect's list holds exactly the names the
   * effect advertises, each with the global index of the last parameter
   * of that name.
   */
  lemma {:induction false} NameMapOfGlobList(info: seq<AdvertisedParameter>, offset: nat, name: string)
    ensures name in NameMap(GlobList(info, offset)) <==> TargetOf(info, name).Some?
    ensures name in NameMap(GlobList(info, offset)) ==>
      NameMap(GlobList(info, offset))[name] == offset + TargetOf(info, name).value
  {
    if |info| > 0 {
      var n := |info| - 1;
      NameMapOfGlobList(info[..n], offset, name);
      assert GlobList(info, offset)[..n] == GlobList(info[..n], offset);
    }
  }

  /** Every index of the list is below `bound`. */
  predicate IndicesBelow(l: seq<ParamNameAndIndex>, bound: nat)
  {
    forall j :: 0 <= j < |l| ==> l[j].1 < bound
  }

  /** A map filled from such a list holds only indices below `bound`. */
  lemma {:induction false} NameMapBelow(l: seq<ParamNameAndIndex>, bound: nat)
    requires IndicesBelow(l, bound)
    ensures forall x :: x in NameMap(l) ==> NameMap(l)[x] < bound
  {
    if |l| > 0 {
      NameMapBelow(l[..|l| - 1], bound);
    }
  }

  /** One `set_effect_parameter` call of the initial configuration. */
  datatype ParamWrite = ParamWrite(effectIdx: nat, paramIdx: nat, value: ParamValue)

  /**
   * The calls made for one declaration's entries, in order: an entry whose
   * name is in the map sets the effect and parameter its global index maps
   * to; any other entry is skipped.
   */
  function EntryWrites(names: map<string, nat>, mappings: seq<EffectParameterMapping>,
                       config: seq<BoardEffectConfigParameter>): seq<ParamWrite>
    requires forall x :: x in names ==> names[x] < |mappings|
  {
    if |config| == 0 then []
    else EntryWrites(names, mappings, config[..|config| - 1]) + EntryWrite(names, mappings, config[|config| - 1])
  }

  /** The call made for one entry: none when its name is not in the map. */
  function EntryWrite(names: map<string, nat>, mappings: seq<EffectParameterMapping>, e: BoardEffectConfigParameter)
    : seq<ParamWrite>
    requires forall x :: x in names ==> names[x] < |mappings|
  {
    if e.name in names then
      var m := mappings[names[e.name]];
      [ParamWrite(m.effectIdx, m.paramIdx, e.value)]
    else []
  }

  /**
   * The calls `set_initial_config_on_effects` makes, declaration by
   * declaration; each declaration's map is filled afresh from its bind
   * name's list.
   */
  function ConfigWrites(decls: seq<BoardEffectDeclaration>, globs: map<string, seq<ParamNameAndIndex>>,
                        mappings: seq<EffectParameterMapping>): seq<ParamWrite>
    requires forall i :: 0 <= i < |decls| ==> decls[i].bindName in globs
    requires forall b :: b in globs ==> IndicesBelow(globs[b], |mappings|)
  {
    if |decls| == 0 then []
    else
      var d := decls[|decls| - 1];
      NameMapBelow(globs[d.bindName], |mappings|);
      ConfigWrites(decls[..|decls| - 1], globs, mappings) + EntryWrites(NameMap(globs[d.bindName]), mappings, d.config)
  }

  /**
   * The calls for one declaration, defined by parameter names alone: an
   * entry naming a parameter the effect at position `k` advertises sets
   * the last parameter of that name; any other entry is skipped.
   */
  function NamedWrites(k: nat, info: seq<AdvertisedParameter>, config: seq<BoardEffectConfigParameter>): seq<ParamWrite>
  {
    if |config| == 0 then []
    else
      var front := NamedWrites(k, info, config[..|config| - 1]);
      var e := config[|config| - 1];
      match TargetOf(info, e.name)
      case Some(p) => front + [ParamWrite(k, p, e.value)]
      case None => front
  }

  /**
   * With the map filled from the list of the effect at position `k`, and
   * the effect's global indices mapping back to it, the calls are the ones
   * the parameter names select.
   */
  lemma {:induction false} EntryWritesNamed(k: nat, info: seq<AdvertisedParameter>, offset: nat, bindName: string,
                                           mappings: seq<EffectParameterMapping>, config: seq<BoardEffectConfigParameter>)
    requires offset + |info| <= |mappings|
    requires forall p :: 0 <= p < |info| ==> mappings[offset + p] == EffectParameterMapping(bindName, k, p)
    ensures forall x :: x in NameMap(GlobList(info, offset)) ==> NameMap(GlobList(info, offset))[x] < |mappings|
    ensures EntryWrites(NameMap(GlobList(info, offset)), mappings, config) == NamedWrites(k, info, config)
  {
    NameMapBelow(GlobList(info, offset), |mappings|);
    if |config| > 0 {
      var e := config[|config| - 1];
      EntryWritesNamed(k, info, offset, bindName, mappings, config[..|config| - 1]);
      NameMapOfGlobList(info, offset, e.name);
      var t := TargetOf(info, e.name);
      if t.Some? {
        assert mappings[NameMap(GlobList(info, offset))[e.name]] == EffectParameterMapping(bindName, k, t.value);
      }
    }
  }

  /** Offsets never decrease along the effects. */
  lemma {:induction false} OffsetMonotone(infos: seq<seq<AdvertisedParameter>>, i: nat, j: nat)
    requires i <= j <= |infos|
    ensures Offset(infos, i) <= Offset(infos, j)
    decreases j - i
  {
    if i < j {
      OffsetMonotone(infos, i, j - 1);
    }
  }

  /** The position of a bind name in `order`. */
  function PositionOf(order: seq<string>, b: string): (k: nat)
    requires b in order
    ensures k < |order| && order[k] == b
  {
    if order[0] == b then 0 else 1 + PositionOf(order[1..], b)
  }

  /**
   * The initial configuration by parameter names alone: each
   * declaration's entries go to the effect now under its bind name.
   */
  function NamedConfig(decls: seq<BoardEffectDeclaration>, order: seq<string>, infos: seq<seq<AdvertisedParameter>>): seq<ParamWrite>
    requires |infos| == |order| && forall i :: 0 <= i < |decls| ==> decls[i].bindName in order
  {
    if |decls| == 0 then []
    else
      var d := decls[|decls| - 1];
      var k := PositionOf(order, d.bindName);
      NamedConfig(decls[..|decls| - 1], order, infos) + NamedWrites(k, infos[k], d.config)
  }

  /** The effect at position `k` owns the global indices from its offset on, all handed out. */
  lemma EffectIndices(order: seq<string>, infos: seq<seq<AdvertisedParameter>>, k: nat)
    requires |order| == |infos| && k < |order|
    ensures Offset(infos, k) + |infos[k]| <= |AllMappings(order, infos, |order|)|
    ensures forall p :: 0 <= p < |infos[k]| ==>
      AllMappings(order, infos, |order|)[Offset(infos, k) + p] == EffectParameterMapping(order[k], k, p)
  {
    OffsetMonotone(infos, k + 1, |order|);
    AllMappingsLength(order, infos, |order|);
    forall p | 0 <= p < |infos[k]|
      ensures AllMappings(order, infos, |order|)[Offset(infos, k) + p] == EffectParameterMapping(order[k], k, p)
    {
      AllMappingsAt(order, infos, |order|, k, p);
    }
  }

  /** Every list recorded by `effect_map_to_vec` holds only handed-out indices. */
  lemma GlobTableBelow(order: seq<string>, infos: seq<seq<AdvertisedParameter>>)
    requires |order| == |infos| && Distinct(order)
    ensures forall b :: b in GlobTable(order, infos, |order|) ==>
      IndicesBelow(GlobTable(order, infos, |order|)[b], |AllMappings(order, infos, |order|)|)
  {
    var n := |order|;
    GlobTableSpec(order, infos, n);
    assert order[..n] == order;
    forall b | b in GlobTable(order, infos, n)
      ensures IndicesBelow(GlobTable(order, infos, n)[b], |AllMappings(order, infos, n)|)
    {
      var k := PositionOf(order, b);
      EffectIndices(order, infos, k);
    }
  }

  /**
   * After `effect_map_to_vec`, the calls of the initial configuration are
   * the ones the parameter names select: every entry naming a parameter of
   * the effect now under the declaration's bind name sets that parameter,
   * and every other entry is skipped.
   */
  lemma {:induction false} ConfigWritesNamed(decls: seq<BoardEffectDeclaration>, order: seq<string>,
                                            infos: seq<seq<AdvertisedParameter>>)
    requires |order| == |infos| && Distinct(order)
    requires forall i :: 0 <= i < |decls| ==> decls[i].bindName in order
    ensures forall i :: 0 <= i < |decls| ==> decls[i].bindName in GlobTable(order, infos, |order|)
    ensures forall b :: b in GlobTable(order, infos, |order|) ==>
      IndicesBelow(GlobTable(order, infos, |order|)[b], |AllMappings(order, infos, |order|)|)
    ensures ConfigWrites(decls, GlobTable(order, infos, |order|), AllMappings(order, infos, |order|)) ==
      NamedConfig(decls, order, infos)
  {
    var n := |order|;
    assert forall i :: 0 <= i < |decls| ==> decls[i].bindName in GlobTable(order, infos, n) by {
      GlobTableSpec(order, infos, n);
      assert order[..n] == order;
    }
    GlobTableBelow(order, infos);
    NamedByConfig(decls, order, infos, GlobTable(order, infos, n), AllMappings(order, infos, n));
  }

  /** The induction of `ConfigWritesNamed`, over the declarations. */
  lemma {:induction false} NamedByConfig(decls: seq<BoardEffectDeclaration>, order: seq<string>,
                                        infos: seq<seq<AdvertisedParameter>>,
                                        globs: map<string, seq<ParamNameAndIndex>>, mappings: seq<EffectParameterMapping>)
    requires |order| == |infos| && Distinct(order)
    requires globs == GlobTable(order, infos, |order|) && mappings == AllMappings(order, infos, |order|)
    requires forall i :: 0 <= i < |decls| ==> decls[i].bindName in order && decls[i].bindName in globs
    requires forall b :: b in globs ==> IndicesBelow(globs[b], |mappings|)
    ensures ConfigWrites(decls, globs, mappings) == NamedConfig(decls, order, infos)
  {
    if |decls| > 0 {
      var front := decls[..|decls| - 1];
      var d := decls[|decls| - 1];
      NamedByConfig(front, order, infos, globs, mappings);
      var k := PositionOf(order, d.bindName);
      assert globs[d.bindName] == GlobList(infos[k], Offset(infos, k)) by {
        GlobTableAt(order, infos, |order|, k);
      }
      EffectIndices(order, infos, k);
      EntryWritesNamed(k, infos[k], Offset(infos, k), order[k], mappings, d.config);
    }
  }

  /* ------------------------------------------------ effect states */

  /** Every delay's taps lie inside its ring. */
  predicate AllTapsFit(states: seq<UnitState>)
  {
    forall k :: 0 <= k < |states| ==> TapsFit(states[k])
  }

  /** A call addresses an effect that exists and, for a delay, a parameter it stores. */
  predicate Addressed(states: seq<UnitState>, w: ParamWrite)
  {
    w.effectIdx < |states| && (states[w.effectIdx].DelayState? ==> w.paramIdx < |states[w.effectIdx].params|)
  }

  /** Two states of one effect agree on its kind and its number of parameters. */
  predicate SameShape(a: UnitState, b: UnitState)
  {
    a.DelayState? == b.DelayState? && (a.DelayState? ==> |a.params| == |b.params|)
  }

  /** The effects' states after the calls, in order, each as `set_effect_parameter` leaves it. */
  function ApplyWrites(states: seq<UnitState>, ws: seq<ParamWrite>): (r: seq<UnitState>)
    requires AllTapsFit(states) && forall j :: 0 <= j < |ws| ==> Addressed(states, ws[j])
    ensures |r| == |states| && AllTapsFit(r)
    ensures forall k :: 0 <= k < |r| ==> SameShape(r[k], states[k])
  {
    if |ws| == 0 then states
    else
      var w := ws[|ws| - 1];
      assert Addressed(states, w);
      assert forall j :: 0 <= j < |ws| - 1 ==> ws[..|ws| - 1][j] == ws[j];
      var before := ApplyWrites(states, ws[..|ws| - 1]);
      assert SameShape(before[w.effectIdx], states[w.effectIdx]);
      ApplySetKeepsTaps(before[w.effectIdx], w.paramIdx, w.value);
      before[w.effectIdx := ApplySet(before[w.effectIdx], w.paramIdx, w.value)]
  }

  /** An effect no call addresses keeps its state. */
  lemma {:induction false} ApplyWritesElsewhere(states: seq<UnitState>, ws: seq<ParamWrite>, k: nat)
    requires AllTapsFit(states) && forall j :: 0 <= j < |ws| ==> Addressed(states, ws[j])
    requires k < |states| && forall j :: 0 <= j < |ws| ==> ws[j].effectIdx != k
    ensures ApplyWrites(states, ws)[k] == states[k]
  {
    if |ws| > 0 {
      ApplyWritesElsewhere(states, ws[..|ws| - 1], k);
    }
  }

  /** Applying two runs of calls is applying them one after the other. */
  lemma {:induction false} ApplyWritesAppend(states: seq<UnitState>, a: seq<ParamWrite>, b: seq<ParamWrite>)
    requires AllTapsFit(states)
    requires forall j :: 0 <= j < |a| ==> Addressed(states, a[j])
    requires forall j :: 0 <= j < |b| ==> Addressed(states, b[j])
    ensures forall j :: 0 <= j < |a + b| ==> Addressed(states, (a + b)[j])
    ensures forall j :: 0 <= j < |b| ==> Addressed(ApplyWrites(states, a), b[j])
    ensures ApplyWrites(states, a + b) == ApplyWrites(ApplyWrites(states, a), b)
  {
    assert forall j :: 0 <= j < |a| ==> (a + b)[j] == a[j];
    assert forall j :: 0 <= j < |b| ==> (a + b)[|a| + j] == b[j];
    if |b| > 0 {
      var front := b[..|b| - 1];
      assert (a + b)[..|a + b| - 1] == a + front;
      ApplyWritesAppend(states, a, front);
    } else {
      assert a + b == a;
    }
  }

  /** How many parameters each effect advertises, by position. */
  function Arity(us: seq<EffectUnit>): (ar: seq<nat>)
    ensures |ar| == |us| && forall k :: 0 <= k < |us| ==> ar[k] == |Advertised(us[k])|
  {
    seq(|us|, k requires 0 <= k < |us| => |Advertised(us[k])|)
  }

  /** Every mapping names an effect position and one of its advertised parameters. */
  predicate MappingsFit(mappings: seq<EffectParameterMapping>, arity: seq<nat>)
  {
    forall g :: 0 <= g < |mappings| ==> mappings[g].effectIdx < |arity| && mappings[g].paramIdx < arity[mappings[g].effectIdx]
  }

  /** Every call names an effect position and one of its advertised parameters. */
  predicate WritesFit(ws: seq<ParamWrite>, arity: seq<nat>)
  {
    forall j :: 0 <= j < |ws| ==> ws[j].effectIdx < |arity| && ws[j].paramIdx < arity[ws[j].effectIdx]
  }

  /** States whose delays store as many parameters as they advertise, taps inside the rings. */
  predicate Fitted(states: seq<UnitState>, arity: seq<nat>)
  {
    && |states| == |arity| && AllTapsFit(states)
    && forall k :: 0 <= k < |states| && states[k].DelayState? ==> |states[k].params| == arity[k]
  }

  /** Calls that fit the advertised parameters address the stored ones. */
  lemma FittedAddressed(states: seq<UnitState>, arity: seq<nat>, ws: seq<ParamWrite>)
    requires Fitted(states, arity) && WritesFit(ws, arity)
    ensures forall j :: 0 <= j < |ws| ==> Addressed(states, ws[j])
  {
  }

  /** The calls for one declaration come from the mappings, so they fit when the mappings do. */
  lemma {:induction false} EntryWritesFit(names: map<string, nat>, mappings: seq<EffectParameterMapping>,
                                         config: seq<BoardEffectConfigParameter>, arity: seq<nat>)
    requires forall x :: x in names ==> names[x] < |mappings|
    requires MappingsFit(mappings, arity)
    ensures WritesFit(EntryWrites(names, mappings, config), arity)
  {
    if |config| > 0 {
      EntryWritesFit(names, mappings, config[..|config| - 1], arity);
    }
  }

  /** All calls of the initial configuration fit when the mappings do. */
  lemma {:induction false} ConfigWritesFit(decls: seq<BoardEffectDeclaration>, globs: map<string, seq<ParamNameAndIndex>>,
                                          mappings: seq<EffectParameterMapping>, arity: seq<nat>)
    requires forall i :: 0 <= i < |decls| ==> decls[i].bindName in globs
    requires forall b :: b in globs ==> IndicesBelow(globs[b], |mappings|)
    requires MappingsFit(mappings, arity)
    ensures WritesFit(ConfigWrites(decls, globs, mappings), arity)
  {
    if |decls| > 0 {
      var d := decls[|decls| - 1];
      ConfigWritesFit(decls[..|decls| - 1], globs, mappings, arity);
      NameMapBelow(globs[d.bindName], |mappings|);
      EntryWritesFit(NameMap(globs[d.bindName]), mappings, d.config, arity);
    }
  }

  /** The delay lines' owners among the effects, readable without the heap. */
  function SeqLines(us: seq<EffectUnit>): set<object>
  {
    set k | 0 <= k < |us| && us[k].DelayUnit? :: us[k].delay.delayBuf
  }

  /** Every object the effects own. */
  function SeqObjects(us: seq<EffectUnit>): set<object>
    reads SeqLines(us)
  {
    set k, o | 0 <= k < |us| && o in Repr(us[k]) :: o
  }

  /** Every object `set_effect_parameter` may change on some effect. */
  function SeqSettings(us: seq<EffectUnit>): set<object>
  {
    set k, o | 0 <= k < |us| && o in Settings(us[k]) :: o
  }

  /** No two effects share an object. */
  ghost predicate Separate(us: seq<EffectUnit>)
    reads SeqLines(us)
  {
    forall i, j :: 0 <= i < j < |us| ==> Repr(us[i]) !! Repr(us[j])
  }

  /** Every effect is well formed with its delay taps inside its ring. */
  ghost predicate AllHealthy(us: seq<EffectUnit>)
    reads SeqLines(us), SeqObjects(us)
  {
    forall k :: 0 <= k < |us| ==> Healthy(us[k])
  }

  /** The tracked state of each effect, by position. */
  ghost function States(us: seq<EffectUnit>): (r: seq<UnitState>)
    reads SeqLines(us), SeqObjects(us)
    ensures |r| == |us| && forall k :: 0 <= k < |us| ==> r[k] == State(us[k])
  {
    seq(|us|, k requires 0 <= k < |us| reads if 0 <= k < |us| then Repr(us[k]) else {} => State(us[k]))
  }

  /** Healthy effects have fitted states. */
  lemma HealthyFitted(us: seq<EffectUnit>)
    requires AllHealthy(us)
    ensures Fitted(States(us), Arity(us))
  {
    forall k | 0 <= k < |us|
      ensures TapsFit(States(us)[k])
      ensures States(us)[k].DelayState? ==> |States(us)[k].params| == Arity(us)[k]
    {
      HealthyTaps(us[k]);
    }
  }

  /**
   * `set_effect_parameter` on the effect at position `k`: that effect's
   * state becomes `ApplySet` of the old one, every other effect keeps its
   * state, and the effects stay healthy and apart.
   */
  method SetAt(us: seq<EffectUnit>, k: nat, paramIdx: nat, value: ParamValue)
    requires k < |us| && AllHealthy(us) && Separate(us)
    requires us[k].DelayUnit? ==> paramIdx < |us[k].delay.params|
    modifies Settings(us[k])
    ensures AllHealthy(us) && Separate(us) && SeqObjects(us) == old(SeqObjects(us))
    ensures TapsFit(old(States(us))[k]) && (old(States(us))[k].DelayState? ==> paramIdx < |old(States(us))[k].params|)
    ensures States(us) == old(States(us))[k := ApplySet(old(States(us))[k], paramIdx, value)]
    ensures forall j :: 0 <= j < |us| && us[j].DelayUnit? ==> us[j].delay.delayBuf.buf == old(us[j].delay.delayBuf.buf)
  {
    HealthyTaps(us[k]);
    ghost var before := States(us);
    SetEffectParameter(us[k], paramIdx, value);
    forall j | 0 <= j < |us| && j != k
      ensures Repr(us[j]) == old(Repr(us[j])) && State(us[j]) == before[j] && Healthy(us[j])
      ensures us[j].DelayUnit? ==> us[j].delay.delayBuf.buf == old(us[j].delay.delayBuf.buf)
    {
      assert Repr(us[j]) !! Repr(us[k]) by {
        if j < k {
          assert Repr(us[j]) !! old(Repr(us[k]));
        } else {
          assert Repr(us[k]) !! old(Repr(us[j]));
        }
      }
    }
  }

  /**
   * The effect at `k` runs on the connection at `connectionIdx`, writing
   * through the connection's first output and its own line as `Ran` says;
   * every effect stays healthy and keeps its tracked state and its objects.
   */
  method ExecuteAt(us: seq<EffectUnit>, k: nat, ctx: BoardContext, connectionIdx: nat, numSamples: nat)
    requires k < |us| && AllHealthy(us) && Separate(us) && AllApart(us, ctx)
    requires ctx.Ready(numSamples) && connectionIdx < |ctx.connections| && ConnectionMapped(ctx.connections[connectionIdx])
    modifies RunFrame(us[k], ctx, connectionIdx)
    ensures ctx.Ready(numSamples) && AllHealthy(us) && Separate(us) && SeqObjects(us) == old(SeqObjects(us))
    ensures States(us) == old(States(us)) && unchanged(SeqLines(us))
    ensures Ran(us[k], ctx, connectionIdx, numSamples)
  {
    ghost var before := States(us);
    ghost var out := var c := ctx.connections[connectionIdx];
      if |c.outputIdxs| > 0 && !us[k].Unmodelled? then ctx.GetBufferForWrite(c.outputIdxs[0]).Footprint() else {};
    if |ctx.connections[connectionIdx].outputIdxs| > 0 {
      WriterUsable(ctx, numSamples, ctx.connections[connectionIdx].outputIdxs[0]);
    }
    RunApart(us, k, ctx, out);
    RunUnit(us[k], ctx, connectionIdx, numSamples);
    forall j | 0 <= j < |us|
      ensures Repr(us[j]) == old(Repr(us[j])) && State(us[j]) == before[j] && Healthy(us[j])
    {
      if j == k {
        assert State(us[k]) == old(State(us[k]));
      }
    }
    assert States(us) == before;
  }

  /** `execute` of one effect: what it writes, and that its own settings and objects are kept. */
  method RunUnit(u: EffectUnit, ctx: BoardContext, connectionIdx: nat, numSamples: nat)
    requires Healthy(u) && ctx.Ready(numSamples) && connectionIdx < |ctx.connections|
    requires ConnectionMapped(ctx.connections[connectionIdx])
    requires u.DelayUnit? ==> u.delay.Apart(ctx)
    modifies RunFrame(u, ctx, connectionIdx)
    ensures ctx.Ready(numSamples) && Healthy(u) && Repr(u) == old(Repr(u)) && State(u) == old(State(u))
    ensures Ran(u, ctx, connectionIdx, numSamples)
  {
    Execute(u, ctx, connectionIdx, numSamples);
  }

  /**
   * What one effect's run writes, within the graph's write set and the
   * effect's own line, misses every other effect's objects and every
   * delay's owner.
   */
  lemma RunApart(us: seq<EffectUnit>, k: nat, ctx: BoardContext, out: set<object>)
    requires k < |us| && Separate(us) && AllApart(us, ctx) && out <= ctx.WriteSet()
    ensures forall j :: 0 <= j < |us| && j != k ==> Repr(us[j]) !! out && Repr(us[j]) !! Rings(us[k])
    ensures forall x :: x in SeqLines(us) ==> x !in out && x !in Rings(us[k])
  {
    forall j | 0 <= j < |us| && j != k
      ensures Repr(us[j]) !! out && Repr(us[j]) !! Rings(us[k])
    {
      assert ApartOne(us[j], ctx);
    }
    forall x | x in SeqLines(us)
      ensures x !in out && x !in Rings(us[k])
    {
      var j :| 0 <= j < |us| && us[j].DelayUnit? && x == us[j].delay.delayBuf;
      assert ApartOne(us[j], ctx);
    }
  }

  /**
   * The generic bypass runs on the connection at `connectionIdx`, writing
   * as `Bypassed` says; it writes only the graph's rings and host arrays,
   * so every effect stays healthy and keeps its tracked state and its
   * objects.
   */
  method BypassAt(bypass: GenericBypass, us: seq<EffectUnit>, ctx: BoardContext, connectionIdx: nat, numSamples: nat)
    requires AllHealthy(us) && Separate(us) && AllApart(us, ctx)
    requires ctx.Ready(numSamples) && connectionIdx < |ctx.connections| && ConnectionMapped(ctx.connections[connectionIdx])
    requires PlanMapped(GenericPlan(ctx.connections[connectionIdx].inputsIdxs, ctx.connections[connectionIdx].outputIdxs))
    modifies ctx.WriteSet()
    ensures ctx.Ready(numSamples) && AllHealthy(us) && Separate(us) && SeqObjects(us) == old(SeqObjects(us))
    ensures States(us) == old(States(us)) && unchanged(SeqLines(us))
    ensures Bypassed(ctx, connectionIdx, numSamples)
  {
    ghost var before := States(us);
    forall j | 0 <= j < |us|
      ensures Repr(us[j]) !! ctx.WriteSet()
    {
      assert ApartOne(us[j], ctx);
    }
    bypass.Execute(ctx, connectionIdx, numSamples);
    forall j | 0 <= j < |us|
      ensures Repr(us[j]) == old(Repr(us[j])) && State(us[j]) == before[j] && Healthy(us[j])
    {
    }
    assert States(us) == before;
  }

  /* ------------------------------------------------ set_initial_config_on_effects */

  /** What the calls of the initial configuration need to be well defined on the effects' states. */
  predicate Configurable(states: seq<UnitState>, ws: seq<ParamWrite>)
  {
    AllTapsFit(states) && forall j :: 0 <= j < |ws| ==> Addressed(states, ws[j])
  }

  /**
   * `set_initial_config_on_effects`: for each declaration, fills a
   * name-to-index map from its bind name's list, sets every entry whose
   * name is in the map on the effect and parameter its index maps to, and
   * skips the rest; the effects end as `ApplyWrites` of the calls
   * `ConfigWrites` lists. Every declared bind name must have a list and
   * every mapping must name an advertised parameter of an existing effect,
   * or the lookups fail.
   */
  method SetInitialConfigOnEffects(loadedConf: BoardConfig, paramMgr: ParameterMappingManager, effects: seq<EffectUnit>)
    requires AllHealthy(effects) && Separate(effects)
    requires MappingsFit(paramMgr.mappings, Arity(effects))
    requires forall i :: 0 <= i < |loadedConf.effects| ==> loadedConf.effects[i].bindName in paramMgr.bindNameToGlobIdxs
    requires forall b :: b in paramMgr.bindNameToGlobIdxs ==> IndicesBelow(paramMgr.bindNameToGlobIdxs[b], |paramMgr.mappings|)
    modifies SeqSettings(effects)
    ensures AllHealthy(effects) && Separate(effects) && SeqObjects(effects) == old(SeqObjects(effects))
    ensures old(Configurable(States(effects), ConfigWrites(loadedConf.effects, paramMgr.bindNameToGlobIdxs, paramMgr.mappings)))
    ensures States(effects) ==
      ApplyWrites(old(States(effects)), ConfigWrites(loadedConf.effects, paramMgr.bindNameToGlobIdxs, paramMgr.mappings))
  {
    ghost var start := States(effects);
    HealthyFitted(effects);
    ConfigureAll(loadedConf.effects, paramMgr, effects, start);
  }

  /** The loop of `set_initial_config_on_effects`: the declarations' calls, in order, from the states `start`. */
  method ConfigureAll(decls: seq<BoardEffectDeclaration>, paramMgr: ParameterMappingManager, effects: seq<EffectUnit>,
                      ghost start: seq<UnitState>)
    requires AllHealthy(effects) && Separate(effects) && States(effects) == start
    requires Fitted(start, Arity(effects)) && MappingsFit(paramMgr.mappings, Arity(effects))
    requires forall i :: 0 <= i < |decls| ==> decls[i].bindName in paramMgr.bindNameToGlobIdxs
    requires forall b :: b in paramMgr.bindNameToGlobIdxs ==> IndicesBelow(paramMgr.bindNameToGlobIdxs[b], |paramMgr.mappings|)
    modifies SeqSettings(effects)
    ensures AllHealthy(effects) && Separate(effects) && SeqObjects(effects) == old(SeqObjects(effects))
    ensures Progress(effects, start, ConfigWrites(decls, paramMgr.bindNameToGlobIdxs, paramMgr.mappings))
  {
    ghost var objects := SeqObjects(effects);
    ghost var globs := paramMgr.bindNameToGlobIdxs;
    ghost var mappings := paramMgr.mappings;
    assert paramMgr !in SeqSettings(effects);
    for i := 0 to |decls|
      invariant AllHealthy(effects) && Separate(effects) && SeqObjects(effects) == objects
      invariant Progress(effects, start, ConfigWrites(decls[..i], globs, mappings))
    {
      ConfigWritesSnoc(decls, i, globs, mappings);
      ConfigureDeclaration(paramMgr, effects, decls[i], start, ConfigWrites(decls[..i], globs, mappings));
      assert paramMgr.bindNameToGlobIdxs == globs && paramMgr.mappings == mappings;
    }
    assert decls[..|decls|] == decls;
  }

  /** The calls of the first `i + 1` declarations extend those of the first `i` by the calls of declaration `i`. */
  lemma ConfigWritesSnoc(decls: seq<BoardEffectDeclaration>, i: nat, globs: map<string, seq<ParamNameAndIndex>>,
                         mappings: seq<EffectParameterMapping>)
    requires i < |decls|
    requires forall j :: 0 <= j < |decls| ==> decls[j].bindName in globs
    requires forall b :: b in globs ==> IndicesBelow(globs[b], |mappings|)
    ensures NameMapBelowFact(globs[decls[i].bindName], |mappings|)
    ensures ConfigWrites(decls[..i + 1], globs, mappings) ==
      ConfigWrites(decls[..i], globs, mappings) + EntryWrites(NameMap(globs[decls[i].bindName]), mappings, decls[i].config)
  {
    NameMapBelow(globs[decls[i].bindName], |mappings|);
    assert decls[..i + 1][..i] == decls[..i];
  }

  /** One declaration of `set_initial_config_on_effects`. */
  method ConfigureDeclaration(paramMgr: ParameterMappingManager, effects: seq<EffectUnit>, effectDecl: BoardEffectDeclaration,
                              ghost start: seq<UnitState>, ghost done: seq<ParamWrite>)
    requires AllHealthy(effects) && Separate(effects)
    requires Fitted(start, Arity(effects)) && MappingsFit(paramMgr.mappings, Arity(effects))
    requires effectDecl.bindName in paramMgr.bindNameToGlobIdxs
    requires IndicesBelow(paramMgr.bindNameToGlobIdxs[effectDecl.bindName], |paramMgr.mappings|)
    requires Progress(effects, start, done)
    modifies SeqSettings(effects)
    ensures AllHealthy(effects) && Separate(effects) && SeqObjects(effects) == old(SeqObjects(effects))
    ensures NameMapBelowFact(paramMgr.bindNameToGlobIdxs[effectDecl.bindName], |paramMgr.mappings|)
    ensures Progress(effects, start,
      done + EntryWrites(NameMap(paramMgr.bindNameToGlobIdxs[effectDecl.bindName]), paramMgr.mappings, effectDecl.config))
  {
    assert paramMgr !in SeqSettings(effects);
    var paramsForEffect := paramMgr.GetGlobIdxsForBindName(effectDecl.bindName);
    var paramNameToIdx := map[];
    for q := 0 to |paramsForEffect|
      invariant paramNameToIdx == NameMap(paramsForEffect[..q])
    {
      assert paramsForEffect[..q + 1][..q] == paramsForEffect[..q];
      paramNameToIdx := paramNameToIdx[paramsForEffect[q].0 := paramsForEffect[q].1];
    }
    assert paramsForEffect[..|paramsForEffect|] == paramsForEffect;
    NameMapBelow(paramsForEffect, |paramMgr.mappings|);
    ConfigureEntries(paramMgr, effects, paramNameToIdx, effectDecl.config, start, done);
    assert paramMgr.bindNameToGlobIdxs == old(paramMgr.bindNameToGlobIdxs);
  }

  /** The entries of one declaration, in order, with the map filled for it. */
  method ConfigureEntries(paramMgr: ParameterMappingManager, effects: seq<EffectUnit>, paramNameToIdx: map<string, nat>,
                          config: seq<BoardEffectConfigParameter>, ghost start: seq<UnitState>, ghost done: seq<ParamWrite>)
    requires AllHealthy(effects) && Separate(effects)
    requires Fitted(start, Arity(effects)) && MappingsFit(paramMgr.mappings, Arity(effects))
    requires forall x :: x in paramNameToIdx ==> paramNameToIdx[x] < |paramMgr.mappings|
    requires Progress(effects, start, done)
    modifies SeqSettings(effects)
    ensures AllHealthy(effects) && Separate(effects) && SeqObjects(effects) == old(SeqObjects(effects))
    ensures Progress(effects, start, done + EntryWrites(paramNameToIdx, paramMgr.mappings, config))
  {
    ghost var objects := SeqObjects(effects);
    assert paramMgr !in SeqSettings(effects);
    assert done + EntryWrites(paramNameToIdx, paramMgr.mappings, config[..0]) == done;
    for j := 0 to |config|
      invariant AllHealthy(effects) && Separate(effects) && SeqObjects(effects) == objects
      invariant Progress(effects, start, done + EntryWrites(paramNameToIdx, paramMgr.mappings, config[..j]))
    {
      EntryWritesSnoc(paramNameToIdx, paramMgr.mappings, config, j, done);
      ConfigureEntry(paramMgr, effects, paramNameToIdx, config[j], start,
                     done + EntryWrites(paramNameToIdx, paramMgr.mappings, config[..j]));
    }
    assert config[..|config|] == config;
  }

  /** The calls of the first `j + 1` entries extend those of the first `j` by the call of entry `j`. */
  lemma EntryWritesSnoc(names: map<string, nat>, mappings: seq<EffectParameterMapping>,
                        config: seq<BoardEffectConfigParameter>, j: nat, done: seq<ParamWrite>)
    requires j < |config| && forall x :: x in names ==> names[x] < |mappings|
    ensures done + EntryWrites(names, mappings, config[..j + 1]) ==
      done + EntryWrites(names, mappings, config[..j]) + EntryWrite(names, mappings, config[j])
  {
    assert config[..j + 1][..j] == config[..j];
  }

  /** The effects stand as the calls `ws`, all fitting, leave the states `start`. */
  ghost predicate Progress(effects: seq<EffectUnit>, start: seq<UnitState>, ws: seq<ParamWrite>)
    reads SeqLines(effects), SeqObjects(effects)
  {
    WritesFit(ws, Arity(effects)) && Configurable(start, ws) && States(effects) == ApplyWrites(start, ws)
  }

  /** One entry of a declaration: set when its name is in the map, skipped otherwise. */
  method ConfigureEntry(paramMgr: ParameterMappingManager, effects: seq<EffectUnit>, paramNameToIdx: map<string, nat>,
                        effectParam: BoardEffectConfigParameter, ghost start: seq<UnitState>, ghost ws: seq<ParamWrite>)
    requires AllHealthy(effects) && Separate(effects)
    requires Fitted(start, Arity(effects)) && MappingsFit(paramMgr.mappings, Arity(effects))
    requires forall x :: x in paramNameToIdx ==> paramNameToIdx[x] < |paramMgr.mappings|
    requires Progress(effects, start, ws)
    modifies SeqSettings(effects)
    ensures AllHealthy(effects) && Separate(effects) && SeqObjects(effects) == old(SeqObjects(effects))
    ensures Progress(effects, start, ws + EntryWrite(paramNameToIdx, paramMgr.mappings, effectParam))
  {
    assert paramMgr !in SeqSettings(effects);
    if effectParam.name !in paramNameToIdx {
      assert ws + [] == ws;
      return;
    }
    var (eidx, pidx) := paramMgr.EffectAndParamIdx(paramNameToIdx[effectParam.name]);
    ghost var w := ParamWrite(eidx, pidx, effectParam.value);
    ghost var ws' := ws + [w];
    assert ws'[..|ws|] == ws;
    assert WritesFit(ws', Arity(effects));
    FittedAddressed(start, Arity(effects), ws');
    HealthyTaps(effects[eidx]);
    assert Settings(effects[eidx]) <= SeqSettings(effects);
    SetAt(effects, eidx, pidx, effectParam.value);
  }

  /** The map filled from `l` holds only indices below `bound`. */
  predicate NameMapBelowFact(l: seq<ParamNameAndIndex>, bound: nat)
  {
    forall x :: x in NameMap(l) ==> NameMap(l)[x] < bound
  }

  /* ------------------------------------------------ what creation guarantees */

  /** The ordinal recorded for each bind name. */
  function SlotOrdinals(slots: map<string, Slot>): (ords: map<string, nat>)
    ensures ords.Keys == slots.Keys && forall b :: b in slots ==> ords[b] == slots[b].ordinal
  {
    map b | b in slots :: slots[b].ordinal
  }

  /** Effects that match the slots carry the slots' ordinals. */
  lemma MatchesOrdinals(effects: LoadedEffects, slots: map<string, Slot>)
    requires Matches(effects, slots)
    ensures OrdinalsOf(effects) == SlotOrdinals(slots)
  {
  }

  /** When every effect name is found, every declared bind name ends with an entry. */
  lemma {:induction false} AssignCovers(exts: seq<FactoryExtension>, decls: seq<BoardEffectDeclaration>)
    requires AllResolve(exts, decls)
    ensures forall i :: 0 <= i < |decls| ==> decls[i].bindName in Assign(exts, decls).slots
  {
    if |decls| > 0 {
      var front := decls[..|decls| - 1];
      assert forall i :: 0 <= i < |front| ==> front[i] == decls[i];
      assert AllResolve(exts, front);
      AssignCovers(exts, front);
      assert Lookup(exts, decls[|decls| - 1].effectName).Some?;
    }
  }

  /**
   * With distinct bind names and every effect found, ordering the loaded
   * effects by ordinal puts them back in declaration order.
   */
  lemma DeclarationOrder(exts: seq<FactoryExtension>, decls: seq<BoardEffectDeclaration>, order: seq<string>)
    requires AllResolve(exts, decls) && DistinctBindNames(decls)
    requires Distinct(order) && |order| == |Assign(exts, decls).slots|
    requires forall b :: b in order <==> b in Assign(exts, decls).slots
    requires SortedBy(order, SlotOrdinals(Assign(exts, decls).slots))
    ensures |order| == |decls| && forall k :: 0 <= k < |order| ==> order[k] == decls[k].bindName
  {
    var slots := Assign(exts, decls).slots;
    var ords := SlotOrdinals(slots);
    AssignOrdinals(exts, decls);
    AssignKeys(exts, decls);
    AssignSpec(exts, decls);
    forall i | 0 <= i < |order|
      ensures order[i] in ords && ords[order[i]] < |order|
    {
      assert order[i] in order;
      var j :| 0 <= j < |decls| && BindNames(decls)[j] == order[i];
    }
    forall i, j | 0 <= i < j < |order|
      ensures ords[order[i]] < ords[order[j]]
    {
      assert order[i] in order && order[j] in order;
    }
    PositionIsOrdinal(order, ords);
    forall k | 0 <= k < |order|
      ensures order[k] == decls[k].bindName
    {
      assert order[k] in order;
      var j :| 0 <= j < |decls| && BindNames(decls)[j] == order[k];
    }
  }

  /** Every registered mapping names an effect position and one of the parameters it advertises. */
  lemma {:induction false} AllMappingsFit(binds: seq<string>, infos: seq<seq<AdvertisedParameter>>, n: nat,
                                          arity: seq<nat>)
    requires |binds| == |infos| && n <= |infos| && |arity| == |infos|
    requires forall k :: 0 <= k < |infos| ==> arity[k] == |infos[k]|
    ensures MappingsFit(AllMappings(binds, infos, n), arity)
  {
    if n > 0 {
      AllMappingsFit(binds, infos, n - 1, arity);
      var front := AllMappings(binds, infos, n - 1);
      var last := EffectMappings(binds[n - 1], n - 1, |infos[n - 1]|);
      var all := front + last;
      forall g | 0 <= g < |all|
        ensures all[g].effectIdx < |arity| && all[g].paramIdx < arity[all[g].effectIdx]
      {
        if g < |front| {
          assert all[g] == front[g];
        } else {
          assert all[g] == last[g - |front|];
        }
      }
    }
  }

  /* ------------------------------------------------ building the runtime */

  /** Each slot's constructor is the one some declaration's effect name finds. */
  lemma {:induction false} AssignMakers(exts: seq<FactoryExtension>, decls: seq<BoardEffectDeclaration>)
    ensures forall b :: b in Assign(exts, decls).slots ==>
      exists i :: 0 <= i < |decls| && Lookup(exts, decls[i].effectName) == Some(Assign(exts, decls).slots[b].maker)
  {
    if |decls| > 0 {
      var front := decls[..|decls| - 1];
      AssignMakers(exts, front);
      forall b | b in Assign(exts, decls).slots
        ensures exists i :: 0 <= i < |decls| && Lookup(exts, decls[i].effectName) == Some(Assign(exts, decls).slots[b].maker)
      {
        assert Assign(exts, decls) == AssignOne(exts, Assign(exts, front), decls[|decls| - 1]);
        if b == decls[|decls| - 1].bindName && Lookup(exts, decls[|decls| - 1].effectName).Some? {
          assert Lookup(exts, decls[|decls| - 1].effectName) == Some(Assign(exts, decls).slots[b].maker);
        } else {
          assert b in Assign(exts, front).slots && Assign(exts, decls).slots[b] == Assign(exts, front).slots[b];
          var i :| 0 <= i < |front| && Lookup(exts, front[i].effectName) == Some(Assign(exts, front).slots[b].maker);
          assert front[i] == decls[i];
        }
      }
    }
  }

  /** Some declared effect name finds the basic delay's constructor. */
  predicate DeclaresDelay(exts: seq<FactoryExtension>, decls: seq<BoardEffectDeclaration>)
  {
    exists i :: 0 <= i < |decls| && Lookup(exts, decls[i].effectName) == Some(MonoDelayBasicMaker)
  }

  /** The state a constructor leaves an effect in: the basic delay's defaults, with no delay yet, or nothing tracked. */
  function NewbornState(m: Maker, ac: AudioConfig): UnitState
  {
    if m == MonoDelayBasicMaker then
      DelayState([F(1000.0), F(0.0), F(0.5)], DelaySetting(0.0, 0, 0.0), CapacityFor(ac.sampleRate, MAX_DELAY_MS), ac.sampleRate)
    else Stateless
  }

  /** The newborn state of each effect, by position. */
  function NewbornStates(us: seq<EffectUnit>, ac: AudioConfig): (r: seq<UnitState>)
    ensures |r| == |us| && forall k :: 0 <= k < |us| ==> r[k] == NewbornState(us[k].Kind(), ac)
  {
    seq(|us|, k requires 0 <= k < |us| => NewbornState(us[k].Kind(), ac))
  }

  /** What each effect advertises, by position. */
  function Advertisements(us: seq<EffectUnit>): (infos: seq<seq<AdvertisedParameter>>)
    ensures |infos| == |us| && forall k :: 0 <= k < |us| ==> infos[k] == Advertised(us[k])
  {
    seq(|us|, k requires 0 <= k < |us| => Advertised(us[k]))
  }

  /**
   * Effects fresh from their constructors, in an order that takes each
   * loaded bind name once: they are healthy when a delay line holds at
   * least two samples, they share no object, and their states are the
   * newborn ones.
   */
  lemma BornUnits(effects: LoadedEffects, order: seq<string>, ac: AudioConfig, foreign: ForeignInfo)
    requires Distinct(order) && forall b :: b in order ==> b in effects
    requires Born(effects, ac, foreign) && Disjoint(effects)
    requires (exists b :: b in effects && effects[b].unit.DelayUnit?) ==> CapacityFor(ac.sampleRate, MAX_DELAY_MS) >= 2
    ensures var us := Units(effects, order, |order|);
      && AllHealthy(us) && Separate(us) && States(us) == NewbornStates(us, ac)
      && SeqSettings(us) <= Owners(effects) && SeqObjects(us) <= Objects(effects)
      && Advertisements(us) == Infos(effects, order)
  {
    var us := Units(effects, order, |order|);
    forall k | 0 <= k < |us|
      ensures Healthy(us[k]) && State(us[k]) == NewbornState(us[k].Kind(), ac)
    {
      assert order[k] in order;
    }
    forall i, j | 0 <= i < j < |us|
      ensures Repr(us[i]) !! Repr(us[j])
    {
      assert order[i] in order && order[j] in order;
    }
    forall o | o in SeqSettings(us)
      ensures o in Owners(effects)
    {
      var k, o' :| 0 <= k < |us| && o' in Settings(us[k]) && o' == o;
      assert order[k] in order;
    }
    forall o | o in SeqObjects(us)
      ensures o in Objects(effects)
    {
      var k, o' :| 0 <= k < |us| && o' in Repr(us[k]) && o' == o;
      assert order[k] in order;
    }
  }

  /**
   * After a successful effect pass the declared effect names all resolve,
   * so every declared bind name is loaded, and a loaded delay comes from a
   * declaration that names the delay.
   */
  lemma LoadedFacts(exts: seq<FactoryExtension>, bc: BoardConfig, effects: LoadedEffects, a: Assigned,
                    ac: AudioConfig, foreign: ForeignInfo)
    requires a == Assign(exts, bc.effects) && a.errors == [] && Matches(effects, a.slots) && Born(effects, ac, foreign)
    requires DeclaresDelay(exts, bc.effects) ==> CapacityFor(ac.sampleRate, MAX_DELAY_MS) >= 2
    ensures (exists b :: b in effects && effects[b].unit.DelayUnit?) ==> CapacityFor(ac.sampleRate, MAX_DELAY_MS) >= 2
    ensures forall i :: 0 <= i < |bc.effects| ==> bc.effects[i].bindName in effects
  {
    AssignSpec(exts, bc.effects);
    AssignCovers(exts, bc.effects);
    if b :| b in effects && effects[b].unit.DelayUnit? {
      AssignMakers(exts, bc.effects);
      var i :| 0 <= i < |bc.effects| && Lookup(exts, bc.effects[i].effectName) == Some(a.slots[b].maker);
      assert DeclaresDelay(exts, bc.effects);
    }
  }

  /**
   * The initial configuration applied to effects fresh from their
   * constructors: the parameter table stays as it is, the effects stay
   * well formed and keep their objects, and their states become the
   * constructor's states followed by the configuration's calls.
   */
  method ConfigureEffects(bc: BoardConfig, pm: ParameterMappingManager, effs: seq<EffectUnit>, ghost order: seq<string>,
                          ac: AudioConfig, ghost objs: set<object>)
    requires AllHealthy(effs) && Separate(effs) && MappingsFit(pm.mappings, Arity(effs))
    requires Distinct(order) && Registered(order, effs, pm.mappings, pm.bindNameToGlobIdxs)
    requires forall i :: 0 <= i < |bc.effects| ==> bc.effects[i].bindName in order
    requires States(effs) == NewbornStates(effs, ac) && SeqObjects(effs) <= objs
    modifies SeqSettings(effs)
    ensures AllHealthy(effs) && Separate(effs) && SeqObjects(effs) <= objs
    ensures pm.mappings == old(pm.mappings) && pm.bindNameToGlobIdxs == old(pm.bindNameToGlobIdxs)
    ensures Configurable(NewbornStates(effs, ac), NamedConfig(bc.effects, order, Advertisements(effs)))
    ensures States(effs) == ApplyWrites(NewbornStates(effs, ac), NamedConfig(bc.effects, order, Advertisements(effs)))
  {
    ConfigWritesNamed(bc.effects, order, Advertisements(effs));
    ManagerNotSetting(pm, effs);
    SetInitialConfigOnEffects(bc, pm, effs);
  }

  /**
   * `effect_map_to_vec` on freshly built effects, with what the ordering
   * and the parameter registration leave for the initial configuration.
   */
  method OrderEffects(loaded: LoadedEffects, ac: AudioConfig, foreign: ForeignInfo, ghost objs: set<object>)
    returns (effs: seq<EffectUnit>, enabled: seq<bool>, pm: ParameterMappingManager, ghost order: seq<string>)
    requires Held(objs, loaded, ac, foreign)
    requires (exists b :: b in loaded && loaded[b].unit.DelayUnit?) ==> CapacityFor(ac.sampleRate, MAX_DELAY_MS) >= 2
    ensures Distinct(order) && |order| == |effs| == |enabled| == |loaded| && (forall b :: b in order <==> b in loaded)
    ensures SortedBy(order, OrdinalsOf(loaded))
    ensures forall k :: 0 <= k < |effs| ==>
      && effs[k] == loaded[order[k]].unit && enabled[k] == loaded[order[k]].enabled
      && Advertised(effs[k]) == InfoFor(effs[k].Kind(), foreign)
    ensures fresh(pm) && Registered(order, effs, pm.mappings, pm.bindNameToGlobIdxs)
    ensures AllHealthy(effs) && Separate(effs) && MappingsFit(pm.mappings, Arity(effs))
    ensures SeqSettings(effs) <= Owners(loaded) && SeqObjects(effs) <= objs
    ensures States(effs) == NewbornStates(effs, ac)
  {
    effs, enabled, pm, order := EffectMapToVec(loaded);
    OrderedFacts(loaded, ac, foreign, order, effs, objs);
  }

  /** What the ordered effects inherit from the loaded ones. */
  lemma OrderedFacts(loaded: LoadedEffects, ac: AudioConfig, foreign: ForeignInfo, order: seq<string>, effs: seq<EffectUnit>,
                     objs: set<object>)
    requires Held(objs, loaded, ac, foreign)
    requires (exists b :: b in loaded && loaded[b].unit.DelayUnit?) ==> CapacityFor(ac.sampleRate, MAX_DELAY_MS) >= 2
    requires Distinct(order) && (forall b :: b in order <==> b in loaded)
    requires effs == Units(loaded, order, |order|)
    ensures forall k :: 0 <= k < |effs| ==> Advertised(effs[k]) == InfoFor(effs[k].Kind(), foreign)
    ensures Advertisements(effs) == Infos(loaded, order)
    ensures AllHealthy(effs) && Separate(effs) && MappingsFit(AllMappings(order, Infos(loaded, order), |order|), Arity(effs))
    ensures SeqSettings(effs) <= Owners(loaded) && SeqObjects(effs) <= objs
    ensures States(effs) == NewbornStates(effs, ac)
  {
    BornUnits(loaded, order, ac, foreign);
    forall k | 0 <= k < |effs|
      ensures Advertised(effs[k]) == InfoFor(effs[k].Kind(), foreign)
    {
      assert order[k] in order;
    }
    AllMappingsFit(order, Infos(loaded, order), |order|, Arity(effs));
  }

  /** Effects ordered from loaded effects that match the slots are ordered by the slots' ordinals and agree with them. */
  lemma SlotFacts(loaded: LoadedEffects, slots: map<string, Slot>, order: seq<string>, effs: seq<EffectUnit>, enabled: seq<bool>,
                  foreign: ForeignInfo)
    requires Matches(loaded, slots)
    requires |order| == |effs| == |enabled| && (forall b :: b in order <==> b in loaded)
    requires SortedBy(order, OrdinalsOf(loaded))
    requires forall k :: 0 <= k < |effs| ==>
      && effs[k] == loaded[order[k]].unit && enabled[k] == loaded[order[k]].enabled
      && Advertised(effs[k]) == InfoFor(effs[k].Kind(), foreign)
    ensures LoadedFrom(order, effs, enabled, slots, foreign)
  {
    MatchesOrdinals(loaded, slots);
    forall k | 0 <= k < |effs|
      ensures effs[k].Kind() == slots[order[k]].maker && enabled[k] == slots[order[k]].enabled
    {
      assert order[k] in order;
    }
  }

  /** A graph that builds stores only ordinals below the number of effects. */
  lemma OrdinalsBelow(bc: BoardConfig, ords: map<string, nat>)
    requires BuildsCleanly(bc, ords)
    ensures forall c :: c in ConnectAll(ExpectedMap(bc.buffers), ords, bc.connections).connections ==> c.ordinal < |ords|
  {
    var conns := ConnectAll(ExpectedMap(bc.buffers), ords, bc.connections).connections;
    ConnectAllSpec(ExpectedMap(bc.buffers), ords, bc.connections);
    forall c | c in conns
      ensures c.ordinal < |ords|
    {
      var k :| 0 <= k < |conns| && conns[k] == c;
      assert Acceptable(ExpectedMap(bc.buffers), ords, bc.connections[k]);
    }
  }

  /** The graph and its rings are none of the objects an effect's settings live in. */
  lemma GraphNotSetting(ctx: BoardContext, us: seq<EffectUnit>)
    ensures ctx !in SeqSettings(us)
    ensures forall i :: 0 <= i < |ctx.buffers| ==> ctx.buffers[i] !in SeqSettings(us) && ctx.buffers[i].data !in SeqSettings(us)
  {
    forall k | 0 <= k < |us|
      ensures ctx !in Settings(us[k])
      ensures forall i :: 0 <= i < |ctx.buffers| ==> ctx.buffers[i] !in Settings(us[k]) && ctx.buffers[i].data !in Settings(us[k])
    {
    }
  }

  /** The parameter manager is none of the objects an effect's settings live in. */
  lemma ManagerNotSetting(pm: ParameterMappingManager, us: seq<EffectUnit>)
    ensures pm !in SeqSettings(us)
  {
    forall k | 0 <= k < |us|
      ensures pm !in Settings(us[k])
    {
    }
  }

  /** The global parameter table registered for the effects in `order`. */
  ghost predicate Registered(order: seq<string>, effs: seq<EffectUnit>, mappings: seq<EffectParameterMapping>,
                             globs: map<string, seq<ParamNameAndIndex>>)
  {
    && |order| == |effs|
    && mappings == AllMappings(order, Advertisements(effs), |effs|)
    && globs == GlobTable(order, Advertisements(effs), |effs|)
  }

  /**
   * `BoardContext::initialize_context`, with the graph's storage new and
   * therefore none of the objects in `avoid`, which existed before.
   */
  method BuildGraph(bc: BoardConfig, ac: AudioConfig, ords: map<string, nat>, ghost avoid: set<object>)
    returns (r: Result<BoardContext, seq<BuildError>>)
    ensures r.Ok? <==> BuildsCleanly(bc, ords)
    ensures r.Ok? ==>
      && fresh(r.value) && r.value.Valid()
      && r.value.connections == ConnectAll(ExpectedMap(bc.buffers), ords, bc.connections).connections
      && |r.value.externalIns| == MAX_EXTERNAL_INS && |r.value.externalOuts| == MAX_EXTERNAL_OUTS
      && (forall k :: 0 <= k < MAX_EXTERNAL_INS ==> r.value.externalIns[k].None?)
      && (forall k :: 0 <= k < MAX_EXTERNAL_OUTS ==> r.value.externalOuts[k].None?)
      && (forall i :: 0 <= i < |r.value.buffers| ==> r.value.buffers[i] !in avoid && r.value.buffers[i].data !in avoid)
  {
    r := BoardContext.InitializeContext(bc, ac, ords);
  }

  /** Every delay line the effects hold is one of their objects. */
  lemma LinesOwned(us: seq<EffectUnit>)
    ensures SeqLines(us) <= SeqObjects(us)
  {
    forall o | o in SeqLines(us)
      ensures o in SeqObjects(us)
    {
      var k :| 0 <= k < |us| && us[k].DelayUnit? && o == us[k].delay.delayBuf;
      assert o in Repr(us[k]);
    }
  }

  /**
   * None of the objects `objs` is a ring of the graph, a ring's storage
   * or a bound host array.
   */
  ghost predicate Outside(objs: set<object>, ctx: BoardContext)
    reads ctx
  {
    && (forall i :: 0 <= i < |ctx.buffers| ==> ctx.buffers[i] !in objs && ctx.buffers[i].data !in objs)
    && (forall k :: 0 <= k < |ctx.externalIns| && ctx.externalIns[k].Some? ==> ctx.externalIns[k].value !in objs)
    && (forall k :: 0 <= k < |ctx.externalOuts| && ctx.externalOuts[k].Some? ==> ctx.externalOuts[k].value !in objs)
  }

  /** Effects whose objects lie outside the graph's storage and host arrays lie apart from the graph. */
  lemma GraphApart(ctx: BoardContext, us: seq<EffectUnit>, objs: set<object>)
    requires SeqObjects(us) <= objs && Outside(objs, ctx)
    ensures AllApart(us, ctx)
  {
    forall k | 0 <= k < |us| && us[k].DelayUnit?
      ensures ApartOne(us[k], ctx)
    {
      var line := us[k].delay.delayBuf.buf;
      assert line in Repr(us[k]) && line.data in Repr(us[k]);
      assert line in objs && line.data in objs;
      assert us[k].delay in Repr(us[k]) && us[k].delay.delayBuf in Repr(us[k]);
      assert us[k].delay in objs && us[k].delay.delayBuf in objs;
    }
  }

  /**
   * With bind names that do not repeat and a graph that builds, the
   * ordinal stored for each connection is the position of the declaration
   * whose bind name the connection names.
   */
  lemma ConnectionsRouted(exts: seq<FactoryExtension>, bc: BoardConfig, a: Assigned, order: seq<string>, ctx: BoardContext)
    requires a == Assign(exts, bc.effects) && AllResolve(exts, bc.effects) && DistinctBindNames(bc.effects)
    requires Distinct(order) && |order| == |a.slots| && (forall b :: b in order <==> b in a.slots)
    requires SortedBy(order, SlotOrdinals(a.slots))
    requires BuildsCleanly(bc, SlotOrdinals(a.slots))
    requires ctx.connections == ConnectAll(ExpectedMap(bc.buffers), SlotOrdinals(a.slots), bc.connections).connections
    ensures RoutedAsDeclared(ctx, order, bc)
  {
    DeclarationOrder(exts, bc.effects, order);
    var conns := ConnectAll(ExpectedMap(bc.buffers), SlotOrdinals(a.slots), bc.connections).connections;
    ConnectAllSpec(ExpectedMap(bc.buffers), SlotOrdinals(a.slots), bc.connections);
    forall i | 0 <= i < |conns|
      ensures conns[i].ordinal < |order| && order[conns[i].ordinal] == bc.connections[i].effect
    {
      RoutedOne(exts, bc, a, i);
    }
  }

  /** One connection's stored ordinal is the position of the declaration it names. */
  lemma RoutedOne(exts: seq<FactoryExtension>, bc: BoardConfig, a: Assigned, i: nat)
    requires a == Assign(exts, bc.effects) && AllResolve(exts, bc.effects) && DistinctBindNames(bc.effects)
    requires BuildsCleanly(bc, SlotOrdinals(a.slots)) && i < |bc.connections|
    ensures var c := Expected(ExpectedMap(bc.buffers), SlotOrdinals(a.slots), bc.connections[i]);
      c.ordinal < |bc.effects| && BindNames(bc.effects)[c.ordinal] == bc.connections[i].effect
  {
    AssignKeys(exts, bc.effects);
    AssignOrdinals(exts, bc.effects);
    var e := bc.connections[i].effect;
    assert e in BindNames(bc.effects);
    var j :| 0 <= j < |bc.effects| && BindNames(bc.effects)[j] == e;
    assert a.slots[e].ordinal == j;
  }

  /**
   * A bind name declared twice: the second declaration replaces the
   * first's entry but still takes a fresh ordinal, so the ordinals skip
   * one. With the declarations A, A, B of a known effect, A holds ordinal 1
   * and B ordinal 2; the effects in ordinal order are A then B, so a
   * connection on A is stored with the position of B, and a connection on
   * B fails as out of range.
   */
  lemma DuplicateBindNameMisroutes(exts: seq<FactoryExtension>, n: string, order: seq<string>,
                                   m: map<string, nat>)
    requires Lookup(exts, n).Some?
    requires Distinct(order) && |order| == 2 && (forall b :: b in order <==> b == "A" || b == "B")
    requires SortedBy(order, map["A" := 1, "B" := 2])
    ensures var decls := [BoardEffectDeclaration(n, "A", [], true), BoardEffectDeclaration(n, "A", [], true),
                          BoardEffectDeclaration(n, "B", [], true)];
      var ords := SlotOrdinals(Assign(exts, decls).slots);
      && ords == map["A" := 1, "B" := 2]
      && order == ["A", "B"]
      && order[ords["A"]] == "B"
      && ConnectOne(m, ords, Connected([], []), BoardConnectionDeclaration("B", [], [])).errors == [OrdinalTooLarge("B", 2)]
  {
    var decls := [BoardEffectDeclaration(n, "A", [], true), BoardEffectDeclaration(n, "A", [], true),
                  BoardEffectDeclaration(n, "B", [], true)];
    var mk := Lookup(exts, n).value;
    assert decls[..3] == decls && decls[..3][..2] == decls[..2] && decls[..2][..1] == decls[..1] && decls[..1][..0] == [];
    assert Assign(exts, decls[..1]) == Assigned(map["A" := Slot(0, mk, true)], 1, []);
    assert Assign(exts, decls[..2]) == Assigned(map["A" := Slot(1, mk, true)], 2, []);
    var a := Assign(exts, decls);
    assert a.slots == map["A" := Slot(1, mk, true), "B" := Slot(2, mk, true)];
    assert SlotOrdinals(a.slots) == map["A" := 1, "B" := 2];
    assert order[0] in order && order[1] in order && order[0] != order[1];
    var ords := map["A" := 1, "B" := 2];
    assert ords[order[0]] <= ords[order[1]];
  }

  /**
   * The error `Otters::create` returns: the messages of the effects that
   * were not found, or the errors of the graph's build.
   */
  datatype OttersInitError = UnitConfigError(messages: seq<string>) | ContextError(errors: seq<BuildError>)

  /** The delay lines of the effects and their storage. */
  function AllRings(us: seq<EffectUnit>): set<object>
    reads SeqLines(us)
  {
    set k, o | 0 <= k < |us| && o in Rings(us[k]) :: o
  }

  /**
   * What `frolic` needs of the stored connections not to index past a
   * table: every index a connection names can be dispatched, and where
   * the connection's effect is disabled, so can every index the generic
   * bypass writes.
   */
  predicate RunnableOn(conns: seq<BoardConnection>, enable: seq<bool>)
  {
    forall i :: 0 <= i < |conns| ==>
      && ConnectionMapped(conns[i])
      && (conns[i].ordinal < |enable| && !enable[conns[i].ordinal] ==>
            PlanMapped(GenericPlan(conns[i].inputsIdxs, conns[i].outputIdxs)))
  }

  /** The parameter table and the graph are not among what running a connection writes. */
  lemma NotWritten(pm: ParameterMappingManager, ctx: BoardContext, us: seq<EffectUnit>)
    ensures pm !in ctx.WriteSet() && pm !in AllRings(us)
    ensures ctx !in ctx.WriteSet() && ctx !in AllRings(us)
  {
    forall k | 0 <= k < |us|
      ensures pm !in Rings(us[k]) && ctx !in Rings(us[k])
    {
    }
  }

  /** Every delay line lies apart from the graph's rings and host arrays. */
  ghost predicate AllApart(us: seq<EffectUnit>, ctx: BoardContext)
    reads SeqLines(us), ctx
  {
    forall k :: 0 <= k < |us| && us[k].DelayUnit? ==> ApartOne(us[k], ctx)
  }

  /** One effect lies apart from the graph: a delay's line, or trivially anything else. */
  ghost predicate ApartOne(u: EffectUnit, ctx: BoardContext)
    reads if u.DelayUnit? then {u.delay.delayBuf} else {}, ctx
  {
    u.DelayUnit? ==> u.delay.Apart(ctx) && Settings(u) !! ctx.WriteSet()
  }

  /**
   * A well-formed runtime, stated on its parts: a valid graph whose
   * connections name existing effect positions, one flag and one bind name
   * per effect, healthy effects that share nothing, global indices naming
   * advertised parameters, and delay lines apart from the graph's memory.
   */
  ghost predicate Sound(fp: set<object>, ctx: BoardContext, effs: seq<EffectUnit>, enabled: seq<bool>,
                        names: seq<string>, mappings: seq<EffectParameterMapping>)
    reads fp
  {
    && ctx in fp && (forall i :: 0 <= i < |ctx.buffers| ==> ctx.buffers[i] in fp)
    && SeqLines(effs) <= fp && SeqObjects(effs) <= fp
    && ctx.Valid()
    && |enabled| == |effs| && |names| == |effs| && Distinct(names)
    && (forall c :: c in ctx.connections ==> c.ordinal < |effs|)
    && AllHealthy(effs) && Separate(effs)
    && MappingsFit(mappings, Arity(effs))
    && Outside(SeqObjects(effs), ctx)
  }

  /** The graph holds the connections the connection pass computes, and no host memory is bound. */
  ghost predicate WiredFrom(ctx: BoardContext, bc: BoardConfig, ords: map<string, nat>)
    reads ctx
  {
    && ctx.connections == ConnectAll(ExpectedMap(bc.buffers), ords, bc.connections).connections
    && |ctx.externalIns| == MAX_EXTERNAL_INS && |ctx.externalOuts| == MAX_EXTERNAL_OUTS
    && (forall k :: 0 <= k < MAX_EXTERNAL_INS ==> ctx.externalIns[k].None?)
    && (forall k :: 0 <= k < MAX_EXTERNAL_OUTS ==> ctx.externalOuts[k].None?)
  }

  /**
   * The effects are one per slot, ordered by ordinal, each of the kind its
   * slot names, enabled as its slot says, and advertising what its kind
   * advertises.
   */
  ghost predicate LoadedFrom(names: seq<string>, effs: seq<EffectUnit>, enabled: seq<bool>, slots: map<string, Slot>,
                             foreign: ForeignInfo)
  {
    && |names| == |effs| == |enabled|
    && (forall b :: b in names <==> b in slots)
    && SortedBy(names, SlotOrdinals(slots))
    && forall k :: 0 <= k < |effs| ==>
         && effs[k].Kind() == slots[names[k]].maker
         && enabled[k] == slots[names[k]].enabled
         && Advertised(effs[k]) == InfoFor(effs[k].Kind(), foreign)
  }

  /**
   * Every declared bind name has an effect, and each effect is in the
   * state its constructor leaves followed by the initial configuration's
   * calls.
   */
  ghost predicate ConfiguredFrom(fp: set<object>, effs: seq<EffectUnit>, names: seq<string>, ac: AudioConfig,
                                 bc: BoardConfig)
    reads fp
  {
    && SeqLines(effs) <= fp && SeqObjects(effs) <= fp
    && (forall i :: 0 <= i < |bc.effects| ==> bc.effects[i].bindName in names)
    && |names| == |effs|
    && Configurable(NewbornStates(effs, ac), NamedConfig(bc.effects, names, Advertisements(effs)))
    && States(effs) == ApplyWrites(NewbornStates(effs, ac), NamedConfig(bc.effects, names, Advertisements(effs)))
  }

  /**
   * The effects are in declaration order, and each connection runs the
   * effect declared under the bind name it names.
   */
  ghost predicate RoutedAsDeclared(ctx: BoardContext, names: seq<string>, bc: BoardConfig)
  {
    && names == BindNames(bc.effects)
    && |ctx.connections| == |bc.connections|
    && forall i :: 0 <= i < |bc.connections| ==>
         ctx.connections[i].ordinal < |names| && names[ctx.connections[i].ordinal] == bc.connections[i].effect
  }

  /**
   * `Otters`: the audio configuration, the graph, the effects in ordinal
   * order with their enable flags, the parsed configuration and factory
   * kept for rebuilding, the global parameter indices, whether an update
   * queue is attached, and the bypass run for disabled effects.
   */
  class Otters {
    const audioConfig: AudioConfig
    const context: BoardContext
    const effects: seq<EffectUnit>
    const enableInfo: seq<bool>
    const parsedConfig: BoardConfig
    const factory: EffectFactory
    const globalParamManager: ParameterMappingManager
    var hasUpdateQueue: bool
    const disabledEffectBypass: GenericBypass
    /** The bind name of each effect, by position. */
    ghost const bindNames: seq<string>
    /** The graph, its memory and every object the effects own. */
    ghost const Repr: set<object>

    /**
     * A well-formed runtime: a valid graph whose connections name existing
     * effect positions, one flag and one bind name per effect, healthy
     * effects that share nothing, global indices naming advertised
     * parameters, and delay lines apart from the graph's memory.
     */
    ghost predicate Valid()
      reads this, globalParamManager, Repr
    {
      Sound(Repr, context, effects, enableInfo, bindNames, globalParamManager.mappings)
    }

    /**
     * The graph's connections are those the connection pass computes for
     * the declared buffers and the effects' ordinals, and no host memory
     * is bound.
     */
    ghost predicate Wired(bc: BoardConfig, ords: map<string, nat>)
      reads this, context
    {
      WiredFrom(context, bc, ords)
    }

    /**
     * The effects are one per slot, ordered by ordinal, each of the kind
     * its slot names, enabled as its slot says, and advertising what its
     * kind advertises.
     */
    ghost predicate Loaded(slots: map<string, Slot>, foreign: ForeignInfo)
    {
      LoadedFrom(bindNames, effects, enableInfo, slots, foreign)
    }

    /** The global parameter table holds each effect's advertised parameters in effect order. */
    ghost predicate TableBuilt()
      reads this, globalParamManager
    {
      Registered(bindNames, effects, globalParamManager.mappings, globalParamManager.bindNameToGlobIdxs)
    }

    /**
     * Every declared bind name has an effect, and each effect is in the
     * state its constructor leaves followed by the initial configuration's
     * calls.
     */
    ghost predicate Configured(ac: AudioConfig, bc: BoardConfig)
      reads this, Repr
    {
      ConfiguredFrom(Repr, effects, bindNames, ac, bc)
    }

    /**
     * The effects are in declaration order, and each connection runs the
     * effect declared under the bind name it names.
     */
    ghost predicate InDeclarationOrder(bc: BoardConfig)
    {
      RoutedAsDeclared(context, bindNames, bc)
    }

    /**
     * The runtime's fields, set from parts already built; what holds of
     * the graph, the effects and the parameter table still holds of them
     * once the runtime exists.
     */
    constructor Make(ac: AudioConfig, ctx: BoardContext, effs: seq<EffectUnit>, enabled: seq<bool>, bc: BoardConfig,
                     f: EffectFactory, pm: ParameterMappingManager, ghost names: seq<string>,
                     ghost ords: map<string, nat>, ghost fp: set<object>)
      requires Sound(fp, ctx, effs, enabled, names, pm.mappings) && WiredFrom(ctx, bc, ords)
      requires ConfiguredFrom(fp, effs, names, ac, bc) && Registered(names, effs, pm.mappings, pm.bindNameToGlobIdxs)
      ensures audioConfig == ac && context == ctx && effects == effs && enableInfo == enabled
      ensures parsedConfig == bc && factory == f && globalParamManager == pm && bindNames == names && Repr == fp
      ensures !hasUpdateQueue && fresh(disabledEffectBypass)
      ensures Valid() == true && Wired(bc, ords) && Configured(ac, bc) && TableBuilt()
    {
      audioConfig := ac;
      context := ctx;
      effects := effs;
      enableInfo := enabled;
      parsedConfig := bc;
      factory := f;
      globalParamManager := pm;
      hasUpdateQueue := false;
      disabledEffectBypass := new GenericBypass();
      bindNames := names;
      Repr := fp;
    }

    /**
     * `Otters::create` from a parsed configuration: builds the effects,
     * then the graph, then orders the effects and hands out global
     * parameter indices, then applies the initial configuration. An unknown
     * effect name fails with the factory's messages before the graph is
     * built; a graph that does not build fails with its errors. A
     * successful build holds the graph the connection pass computes, the
     * effects in ordinal order, each in the state its constructor leaves
     * followed by the initial configuration's calls, no host memory bound
     * and no update queue. With bind names that do not repeat, the effects
     * are in declaration order and each connection runs the effect declared
     * under the bind name it names. A declared basic delay needs a line of
     * at least two samples.
     */
    static method Create(ac: AudioConfig, factoryExtensions: seq<FactoryExtension>, foreign: ForeignInfo, bc: BoardConfig)
      returns (r: Result<Otters, OttersInitError>)
      requires DeclaresDelay(factoryExtensions, bc.effects) ==> CapacityFor(ac.sampleRate, MAX_DELAY_MS) >= 2
      ensures var a := Assign(factoryExtensions, bc.effects);
        && (a.errors != [] ==> r == Err(UnitConfigError(a.errors)))
        && (a.errors == [] ==> (r.Ok? <==> BuildsCleanly(bc, SlotOrdinals(a.slots))))
        && (a.errors == [] && r.Err? ==> r.error.ContextError?)
      ensures r.Ok? ==> var o := r.value; var a := Assign(factoryExtensions, bc.effects);
        && fresh(o) && fresh(o.context) && fresh(o.globalParamManager) && o.Valid()
        && o.audioConfig == ac && o.parsedConfig == bc && !o.hasUpdateQueue
        && o.Wired(bc, SlotOrdinals(a.slots)) && o.Loaded(a.slots, foreign) && o.TableBuilt() && o.Configured(ac, bc)
      ensures r.Ok? && DistinctBindNames(bc.effects) ==> r.value.InDeclarationOrder(bc)
    {
      var factory := new EffectFactory.AssembleFactory(ac, factoryExtensions, foreign);
      ghost var a := Assign(factoryExtensions, bc.effects);
      var effectsR := CreateEffectUnits(factory, bc.effects);
      if effectsR.Err? {
        return Err(UnitConfigError(effectsR.error));
      }
      r := Finish(ac, factoryExtensions, foreign, bc, factory, effectsR.value, a);
    }

    /**
     * The steps of `Otters::create` once the effects are built: the graph
     * is built over the effects' ordinals, and a graph that does not build
     * fails with its errors.
     */
    static method Finish(ac: AudioConfig, factoryExtensions: seq<FactoryExtension>, foreign: ForeignInfo,
                         bc: BoardConfig, factory: EffectFactory, loaded: LoadedEffects, ghost a: Assigned)
      returns (r: Result<Otters, OttersInitError>)
      requires DeclaresDelay(factoryExtensions, bc.effects) ==> CapacityFor(ac.sampleRate, MAX_DELAY_MS) >= 2
      requires a == Assign(factoryExtensions, bc.effects) && a.errors == []
      requires Matches(loaded, a.slots) && Born(loaded, ac, foreign) && Disjoint(loaded)
      modifies Owners(loaded)
      ensures r.Ok? <==> BuildsCleanly(bc, SlotOrdinals(a.slots))
      ensures r.Err? ==> r.error.ContextError?
      ensures r.Ok? ==> var o := r.value;
        && fresh(o) && fresh(o.context) && fresh(o.globalParamManager) && o.Valid()
        && o.audioConfig == ac && o.parsedConfig == bc && !o.hasUpdateQueue
        && o.Wired(bc, SlotOrdinals(a.slots)) && o.Loaded(a.slots, foreign) && o.TableBuilt() && o.Configured(ac, bc)
      ensures r.Ok? && DistinctBindNames(bc.effects) ==> r.value.InDeclarationOrder(bc)
    {
      MatchesOrdinals(loaded, a.slots);
      ghost var objs := Lines(loaded) + Objects(loaded);
      assert Held(objs, loaded, ac, foreign);
      var contextR := BuildGraph(bc, ac, OrdinalsOf(loaded), objs);
      if contextR.Err? {
        return Err(ContextError(contextR.error));
      }
      var ctx := contextR.value;
      var o := Assemble(ac, factoryExtensions, foreign, bc, factory, loaded, ctx, a, objs);
      return Ok(o);
    }

    /**
     * The steps of `Otters::create` once the effects and the graph are
     * built: `effect_map_to_vec`, `set_initial_config_on_effects` and the
     * runtime's fields.
     */
    static method Assemble(ac: AudioConfig, factoryExtensions: seq<FactoryExtension>, foreign: ForeignInfo,
                           bc: BoardConfig, factory: EffectFactory, loaded: LoadedEffects, ctx: BoardContext,
                           ghost a: Assigned, ghost objs: set<object>)
      returns (o: Otters)
      requires DeclaresDelay(factoryExtensions, bc.effects) ==> CapacityFor(ac.sampleRate, MAX_DELAY_MS) >= 2
      requires a == Assign(factoryExtensions, bc.effects) && a.errors == []
      requires Matches(loaded, a.slots) && Held(objs, loaded, ac, foreign)
      requires ctx.Valid() && BuildsCleanly(bc, SlotOrdinals(a.slots))
      requires WiredFrom(ctx, bc, SlotOrdinals(a.slots))
      requires forall i :: 0 <= i < |ctx.buffers| ==> ctx.buffers[i] !in objs && ctx.buffers[i].data !in objs
      modifies Owners(loaded)
      ensures fresh(o) && o.context == ctx && fresh(o.globalParamManager) && o.Valid()
      ensures o.audioConfig == ac && o.parsedConfig == bc && !o.hasUpdateQueue
      ensures o.Wired(bc, SlotOrdinals(a.slots)) && o.Loaded(a.slots, foreign) && o.TableBuilt() && o.Configured(ac, bc)
      ensures DistinctBindNames(bc.effects) ==> o.InDeclarationOrder(bc)
    {
      LoadedFacts(factoryExtensions, bc, loaded, a, ac, foreign);
      OrdinalsBelow(bc, SlotOrdinals(a.slots));
      MatchesOrdinals(loaded, a.slots);
      var effs, enabled, pm, order, fp := Prepare(ac, foreign, bc, loaded, ctx, objs);
      SlotFacts(loaded, a.slots, order, effs, enabled, foreign);
      if DistinctBindNames(bc.effects) {
        AssignSpec(factoryExtensions, bc.effects);
        ConnectionsRouted(factoryExtensions, bc, a, order, ctx);
      }
      o := new Otters.Make(ac, ctx, effs, enabled, bc, factory, pm, order, SlotOrdinals(a.slots), fp);
    }

    /**
     * The steps of `Otters::create` between building the graph and setting
     * the runtime's fields: the effects in ordinal order with their global
     * parameter indices, configured as the initial configuration says.
     * `fp` collects the graph, its memory and the effects' objects.
     */
    static method Prepare(ac: AudioConfig, foreign: ForeignInfo, bc: BoardConfig, loaded: LoadedEffects,
                          ctx: BoardContext, ghost objs: set<object>)
      returns (effs: seq<EffectUnit>, enabled: seq<bool>, pm: ParameterMappingManager, ghost order: seq<string>,
               ghost fp: set<object>)
      requires (exists b :: b in loaded && loaded[b].unit.DelayUnit?) ==> CapacityFor(ac.sampleRate, MAX_DELAY_MS) >= 2
      requires forall i :: 0 <= i < |bc.effects| ==> bc.effects[i].bindName in loaded
      requires Held(objs, loaded, ac, foreign)
      requires ctx.Valid() && (forall c :: c in ctx.connections ==> c.ordinal < |loaded|)
      requires forall k :: 0 <= k < |ctx.externalIns| ==> ctx.externalIns[k].None?
      requires forall k :: 0 <= k < |ctx.externalOuts| ==> ctx.externalOuts[k].None?
      requires forall i :: 0 <= i < |ctx.buffers| ==> ctx.buffers[i] !in objs && ctx.buffers[i].data !in objs
      modifies Owners(loaded)
      ensures Distinct(order) && |order| == |effs| == |enabled| == |loaded| && (forall b :: b in order <==> b in loaded)
      ensures SortedBy(order, OrdinalsOf(loaded))
      ensures forall k :: 0 <= k < |effs| ==>
        && effs[k] == loaded[order[k]].unit && enabled[k] == loaded[order[k]].enabled
        && Advertised(effs[k]) == InfoFor(effs[k].Kind(), foreign)
      ensures fresh(pm) && unchanged(ctx) && Sound(fp, ctx, effs, enabled, order, pm.mappings)
      ensures ConfiguredFrom(fp, effs, order, ac, bc) && Registered(order, effs, pm.mappings, pm.bindNameToGlobIdxs)
    {
      effs, enabled, pm, order := OrderEffects(loaded, ac, foreign, objs);
      fp := Settle(bc, ac, pm, effs, enabled, order, ctx, objs);
    }

    /**
     * `set_initial_config_on_effects` on the ordered effects, leaving the
     * graph alone; `fp` collects the graph, its memory and the effects'
     * objects.
     */
    static method Settle(bc: BoardConfig, ac: AudioConfig, pm: ParameterMappingManager, effs: seq<EffectUnit>,
                         enabled: seq<bool>, ghost order: seq<string>, ctx: BoardContext, ghost objs: set<object>)
      returns (ghost fp: set<object>)
      requires AllHealthy(effs) && Separate(effs) && MappingsFit(pm.mappings, Arity(effs))
      requires Distinct(order) && |enabled| == |effs| && Registered(order, effs, pm.mappings, pm.bindNameToGlobIdxs)
      requires forall i :: 0 <= i < |bc.effects| ==> bc.effects[i].bindName in order
      requires States(effs) == NewbornStates(effs, ac) && SeqObjects(effs) <= objs
      requires ctx.Valid() && (forall c :: c in ctx.connections ==> c.ordinal < |effs|)
      requires forall k :: 0 <= k < |ctx.externalIns| ==> ctx.externalIns[k].None?
      requires forall k :: 0 <= k < |ctx.externalOuts| ==> ctx.externalOuts[k].None?
      requires forall i :: 0 <= i < |ctx.buffers| ==> ctx.buffers[i] !in objs && ctx.buffers[i].data !in objs
      modifies SeqSettings(effs)
      ensures unchanged(ctx) && Sound(fp, ctx, effs, enabled, order, pm.mappings)
      ensures ConfiguredFrom(fp, effs, order, ac, bc) && Registered(order, effs, pm.mappings, pm.bindNameToGlobIdxs)
    {
      GraphNotSetting(ctx, effs);
      ConfigureEffects(bc, pm, effs, order, ac, objs);
      LinesOwned(effs);
      fp := SeqObjects(effs) + {ctx} + (set i | 0 <= i < |ctx.buffers| :: ctx.buffers[i]);
    }

    /** Every stored connection can run without indexing past a table. */
    ghost predicate Runnable()
    {
      RunnableOn(context.connections, enableInfo)
    }

    /**
     * `bind_input`: an index of 10 or more changes nothing; an index below
     * 6 points that host input at the array (or unbinds it); the indices 6
     * to 9 pass the guard but index past the table, which panics in the
     * source, so they are excluded. The host's array is not one of the
     * runtime's own objects.
     */
    method BindInput(inputIdx: nat, inputPtr: HostPtr)
      requires Valid() && (inputIdx >= MAX_ALLOWABLE_INPUTS || inputIdx < MAX_EXTERNAL_INS)
      requires inputPtr.Some? ==> inputPtr.value !in Repr
      modifies context
      ensures Valid() && context.externalOuts == old(context.externalOuts)
      ensures inputIdx >= MAX_ALLOWABLE_INPUTS ==> context.externalIns == old(context.externalIns)
      ensures inputIdx < MAX_EXTERNAL_INS ==> context.externalIns == old(context.externalIns)[inputIdx := inputPtr]
    {
      context.BindSource(inputIdx, inputPtr);
    }

    /**
     * `bind_output`: the same for the host outputs, whose table has 6
     * entries behind a guard of 10.
     */
    method BindOutput(outputIdx: nat, outputPtr: HostPtr)
      requires Valid() && (outputIdx >= MAX_ALLOWABLE_OUTPUTS || outputIdx < MAX_EXTERNAL_OUTS)
      requires outputPtr.Some? ==> outputPtr.value !in Repr
      modifies context
      ensures Valid() && context.externalIns == old(context.externalIns)
      ensures outputIdx >= MAX_ALLOWABLE_OUTPUTS ==> context.externalOuts == old(context.externalOuts)
      ensures outputIdx < MAX_EXTERNAL_OUTS ==> context.externalOuts == old(context.externalOuts)[outputIdx := outputPtr]
    {
      context.BindSink(outputIdx, outputPtr);
    }

    /**
     * `frolic`: visits every stored connection once, in stored order,
     * running the connection's effect when its flag is set and the generic
     * bypass otherwise (`RunConnection` states what each visit writes); the
     * runtime stays well formed and no effect's parameters or delay setting
     * change. Every host array bound must hold a block of `numSamples`.
     */
    method Frolic(numSamples: nat)
      requires Valid() && Runnable() && context.Ready(numSamples)
      modifies context.WriteSet(), AllRings(effects)
      ensures Valid() && context.Ready(numSamples) && States(effects) == old(States(effects))
      ensures unchanged(context) && unchanged(SeqLines(effects))
    {
      var connections := context.GetConnections();
      for i := 0 to |connections|
        invariant Valid() && context.Ready(numSamples) && States(effects) == old(States(effects))
        invariant unchanged(context) && unchanged(SeqLines(effects))
      {
        VisitWithin(i, numSamples);
        RunConnection(i, numSamples);
      }
    }

    /**
     * What the visit of the connection at `i` may change: the frame of its
     * effect's `execute` when the effect is enabled, and the graph's rings
     * and host outputs, which the generic bypass may all write, otherwise.
     */
    ghost function VisitFrame(i: nat): set<object>
      requires Valid() && i < |context.connections|
      reads this, globalParamManager, Repr
    {
      var o := context.connections[i].ordinal;
      if o < |effects| && o < |enableInfo| && enableInfo[o] && ConnectionMapped(context.connections[i])
        && |context.externalOuts| == MAX_EXTERNAL_OUTS
      then RunFrame(effects[o], context, i)
      else context.WriteSet()
    }

    /** The visit of the connection at `i` changes only what `frolic` may change. */
    lemma VisitWithin(i: nat, numSamples: nat)
      requires Valid() && context.Ready(numSamples) && i < |context.connections|
      ensures VisitFrame(i) <= context.WriteSet() + AllRings(effects)
    {
      var c := context.connections[i];
      if c.ordinal < |effects| && ConnectionMapped(c) {
        if |c.outputIdxs| > 0 {
          WriterUsable(context, numSamples, c.outputIdxs[0]);
        }
        assert Rings(effects[c.ordinal]) <= AllRings(effects);
      }
    }

    /**
     * One step of `frolic`: when the connection's effect is enabled, its
     * output and line change as `Ran` says for that effect; otherwise every
     * writable buffer changes as `Bypassed` says for the generic bypass.
     */
    method RunConnection(i: nat, numSamples: nat)
      requires Valid() && Runnable() && context.Ready(numSamples) && i < |context.connections|
      modifies VisitFrame(i)
      ensures Valid() && context.Ready(numSamples) && States(effects) == old(States(effects))
      ensures unchanged(context) && unchanged(SeqLines(effects))
      ensures var c := context.connections[i];
        && ConnectionMapped(c) && c.ordinal < |effects| && Healthy(effects[c.ordinal])
        && (enableInfo[c.ordinal] ==> Ran(effects[c.ordinal], context, i, numSamples))
        && (!enableInfo[c.ordinal] ==> Bypassed(context, i, numSamples))
    {
      var connection := context.connections[i];
      if enableInfo[connection.ordinal] {
        RunEffect(connection.ordinal, i, numSamples);
      } else {
        RunBypass(i, numSamples);
      }
    }

    /** The effect at `o` runs on the connection at `i`, writing as `Ran` says; no effect's settings change. */
    method RunEffect(o: nat, i: nat, numSamples: nat)
      requires Valid() && context.Ready(numSamples) && i < |context.connections|
      requires o == context.connections[i].ordinal && ConnectionMapped(context.connections[i])
      modifies if o < |effects| then RunFrame(effects[o], context, i) else {}
      ensures Valid() && context.Ready(numSamples) && States(effects) == old(States(effects))
      ensures unchanged(context) && unchanged(SeqLines(effects))
      ensures o < |effects| && Ran(effects[o], context, i, numSamples)
    {
      GraphApart(context, effects, SeqObjects(effects));
      if |context.connections[i].outputIdxs| > 0 {
        WriterUsable(context, numSamples, context.connections[i].outputIdxs[0]);
      }
      assert Rings(effects[o]) <= AllRings(effects);
      NotWritten(globalParamManager, context, effects);
      ExecuteAt(effects, o, context, i, numSamples);
    }

    /** The generic bypass runs on the connection at `i`, writing as `Bypassed` says; no effect is touched. */
    method RunBypass(i: nat, numSamples: nat)
      requires Valid() && Runnable() && context.Ready(numSamples) && i < |context.connections|
      requires !enableInfo[context.connections[i].ordinal]
      modifies context.WriteSet()
      ensures Valid() && context.Ready(numSamples) && States(effects) == old(States(effects))
      ensures unchanged(context) && unchanged(SeqLines(effects))
      ensures Bypassed(context, i, numSamples)
    {
      GraphApart(context, effects, SeqObjects(effects));
      NotWritten(globalParamManager, context, effects);
      BypassAt(disabledEffectBypass, effects, context, i, numSamples);
    }

    /**
     * `set_effect_parameter`: the global index names an effect position
     * and one of that effect's parameters; that effect alone takes the
     * value, as its own `set_effect_parameter` says, and the runtime stays
     * well formed. An index past the table panics in the source.
     */
    method SetEffectParameter(globalIdx: nat, value: ParamValue)
      requires Valid() && globalIdx < globalParamManager.Count()
      modifies SeqSettings(effects)
      ensures Valid()
      ensures var m := globalParamManager.mappings[globalIdx];
        && m.effectIdx < |effects| && m.paramIdx < |Advertised(effects[m.effectIdx])|
        && States(effects) == old(States(effects))[m.effectIdx := ApplySet(old(States(effects))[m.effectIdx], m.paramIdx, value)]
    {
      GraphNotSetting(context, effects);
      ManagerNotSetting(globalParamManager, effects);
      var (eIdx, pIdx) := globalParamManager.EffectAndParamIdx(globalIdx);
      HealthyTaps(effects[eIdx]);
      assert Settings(effects[eIdx]) <= SeqSettings(effects);
      SetAt(effects, eIdx, pIdx, value);
    }
  }
}
