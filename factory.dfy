/**
 * The effect factory: a list of registration families searched in order
 * for an effect name, and the audio configuration handed to every
 * constructor it runs.
 */
module Factory {
  import opened Wrappers
  import opened Conf
  import opened Effects

  /** The constructor the search finds from family `i` on: the first family holding the name wins. */
  function LookupFrom(exts: seq<FactoryExtension>, name: string, i: nat): Option<Maker>
    decreases |exts| - i
  {
    if i >= |exts| then None
    else if name in exts[i] then Some(exts[i][name])
    else LookupFrom(exts, name, i + 1)
  }

  /** The constructor registered for `name` in the first family that has it. */
  function Lookup(exts: seq<FactoryExtension>, name: string): Option<Maker>
  {
    LookupFrom(exts, name, 0)
  }

  /**
   * The search from family `i` finds nothing exactly when no family from
   * `i` on holds the name, and otherwise finds the constructor of the
   * first one that does.
   */
  lemma {:induction false} LookupFromFirst(exts: seq<FactoryExtension>, name: string, i: nat)
    requires i <= |exts|
    ensures LookupFrom(exts, name, i).None? <==> forall j :: i <= j < |exts| ==> name !in exts[j]
    ensures forall k :: i <= k < |exts| && name in exts[k] && (forall j :: i <= j < k ==> name !in exts[j]) ==>
      LookupFrom(exts, name, i) == Some(exts[k][name])
    decreases |exts| - i
  {
    if i < |exts| && name !in exts[i] {
      LookupFromFirst(exts, name, i + 1);
    }
  }

  /** `Lookup` characterised: None iff no family has the name, else the first family's constructor. */
  lemma LookupFirst(exts: seq<FactoryExtension>, name: string)
    ensures Lookup(exts, name).None? <==> forall j :: 0 <= j < |exts| ==> name !in exts[j]
    ensures forall k :: 0 <= k < |exts| && name in exts[k] && (forall j :: 0 <= j < k ==> name !in exts[j]) ==>
      Lookup(exts, name) == Some(exts[k][name])
  {
    LookupFromFirst(exts, name, 0);
  }

  /** Every name of every family, a name registered by several families once per family. */
  function AllNames(exts: seq<FactoryExtension>): multiset<string>
  {
    if |exts| == 0 then multiset{}
    else AllNames(exts[..|exts| - 1]) + multiset(exts[|exts| - 1].Keys)
  }

  /** The sum of the families' table sizes. */
  function TableSizes(exts: seq<FactoryExtension>): nat
  {
    if |exts| == 0 then 0
    else TableSizes(exts[..|exts| - 1]) + |exts[|exts| - 1]|
  }

  /** The positions of the families that hold `name`. */
  function FamiliesWith(exts: seq<FactoryExtension>, name: string): set<nat>
  {
    set i: nat | i < |exts| && name in exts[i]
  }

  /** A set turned into a multiset keeps its size. */
  lemma {:induction false} SetAsMultisetSize(s: set<string>)
    ensures |multiset(s)| == |s|
    decreases |s|
  {
    if s != {} {
      var x :| x in s;
      SetAsMultisetSize(s - {x});
      assert multiset(s) == multiset(s - {x}) + multiset{x};
    }
  }

  /** The loaded names are as many as the table entries together. */
  lemma {:induction false} AllNamesSize(exts: seq<FactoryExtension>)
    ensures |AllNames(exts)| == TableSizes(exts)
  {
    if |exts| > 0 {
      AllNamesSize(exts[..|exts| - 1]);
      SetAsMultisetSize(exts[|exts| - 1].Keys);
    }
  }

  /** A name occurs among the loaded names once for each family that registers it. */
  lemma {:induction false} AllNamesMultiplicity(exts: seq<FactoryExtension>, name: string)
    ensures AllNames(exts)[name] == |FamiliesWith(exts, name)|
  {
    if |exts| > 0 {
      var n := |exts| - 1;
      AllNamesMultiplicity(exts[..n], name);
      FamiliesWithSnoc(exts, name);
    }
  }

  /** The families holding `name` are those of the front, and the last one if it holds it. */
  lemma FamiliesWithSnoc(exts: seq<FactoryExtension>, name: string)
    requires |exts| > 0
    ensures var n := |exts| - 1;
      FamiliesWith(exts, name) == FamiliesWith(exts[..n], name) + (if name in exts[n] then {n} else {})
  {
    var n := |exts| - 1;
    forall i | i in FamiliesWith(exts, name)
      ensures i in FamiliesWith(exts[..n], name) + (if name in exts[n] then {n} else {})
    {
      if i < n {
        assert exts[..n][i] == exts[i];
      }
    }
  }

  /** A loaded name is one the search finds, and the other way round. */
  lemma AllNamesMembers(exts: seq<FactoryExtension>, name: string)
    ensures name in AllNames(exts) <==> Lookup(exts, name).Some?
  {
    AllNamesMultiplicity(exts, name);
    LookupFirst(exts, name);
    if Lookup(exts, name).Some? {
      var k :| 0 <= k < |exts| && name in exts[k];
      assert k in FamiliesWith(exts, name);
    }
    if name in AllNames(exts) {
      var k :| k in FamiliesWith(exts, name);
      assert name in exts[k];
    }
  }

  /**
   * Over the families the runtime loads, every name is listed at most once,
   * and a registered name is found in the one family that registers it, so
   * the order of the families does not matter.
   */
  lemma LoadedLookup(name: string)
    ensures AllNames(LoadedSet())[name] <= 1
    ensures forall i :: 0 <= i < |LoadedSet()| && name in LoadedSet()[i] ==>
      Lookup(LoadedSet(), name) == Some(LoadedSet()[i][name])
  {
    var exts := LoadedSet();
    LoadedNamesDistinct();
    LookupFirst(exts, name);
    AllNamesMultiplicity(exts, name);
    var fs := FamiliesWith(exts, name);
    if fs != {} {
      var k :| k in fs;
      assert fs == {k} by {
        forall j | j in fs
          ensures j == k
        {
          assert !(j < k) && !(k < j);
        }
      }
    }
  }

  /** `EffectFactory`: the families to search and the configuration to build with. */
  class EffectFactory {
    var audioConfig: AudioConfig
    const factoryExts: seq<FactoryExtension>
    /** The parameter tables of the effects implemented outside this model. */
    const foreign: ForeignInfo

    /** `assemble_factory`. */
    constructor AssembleFactory(ac: AudioConfig, extensions: seq<FactoryExtension>, foreign: ForeignInfo)
      ensures audioConfig == ac && factoryExts == extensions && this.foreign == foreign
    {
      audioConfig := ac;
      factoryExts := extensions;
      this.foreign := foreign;
    }

    /**
     * `create_effect_unit`: runs the constructor of the first family that
     * registers the name with the current configuration, or finds none.
     */
    method CreateEffectUnit(name: string) returns (r: Option<EffectUnit>)
      ensures r.None? <==> Lookup(factoryExts, name).None?
      ensures r.Some? ==>
        && r.value.Kind() == Lookup(factoryExts, name).value
        && Advertised(r.value) == InfoFor(r.value.Kind(), foreign)
        && fresh(Repr(r.value)) && Newborn(r.value, audioConfig)
    {
      var i := 0;
      while i < |factoryExts|
        invariant i <= |factoryExts|
        invariant LookupFrom(factoryExts, name, i) == Lookup(factoryExts, name)
      {
        if name in factoryExts[i] {
          var u := Construct(factoryExts[i][name], foreign, audioConfig);
          return Some(u);
        }
        i := i + 1;
      }
      return None;
    }

    /** `change_audio_config`: later constructions use the new configuration. */
    method ChangeAudioConfig(ac: AudioConfig)
      modifies this
      ensures audioConfig == ac
    {
      audioConfig := ac;
    }

    /**
     * `get_loaded_effect_names`: every name of every family, family by
     * family; within a family the order is the table's iteration order,
     * which the model leaves open.
     */
    method GetLoadedEffectNames() returns (r: seq<string>)
      ensures multiset(r) == AllNames(factoryExts)
    {
      r := [];
      var i := 0;
      while i < |factoryExts|
        invariant i <= |factoryExts|
        invariant multiset(r) == AllNames(factoryExts[..i])
      {
        var table := factoryExts[i];
        var keys := table.Keys;
        ghost var start := r;
        while keys != {}
          invariant keys <= table.Keys
          invariant multiset(r) == multiset(start) + multiset(table.Keys - keys)
          decreases keys
        {
          var k :| k in keys;
          r := r + [k];
          assert table.Keys - (keys - {k}) == (table.Keys - keys) + {k};
          keys := keys - {k};
        }
        assert table.Keys - keys == table.Keys;
        assert factoryExts[..i + 1][..i] == factoryExts[..i];
        i := i + 1;
      }
      assert factoryExts[..i] == factoryExts;
    }

    /** `get_effect_info`: the table registered with the first constructor found for the name. */
    method GetEffectInfo(name: string) returns (r: Option<seq<AdvertisedParameter>>)
      ensures r.None? <==> Lookup(factoryExts, name).None?
      ensures r.Some? ==> r.value == InfoFor(Lookup(factoryExts, name).value, foreign)
    {
      var i := 0;
      while i < |factoryExts|
        invariant i <= |factoryExts|
        invariant LookupFrom(factoryExts, name, i) == Lookup(factoryExts, name)
      {
        if name in factoryExts[i] {
          return Some(InfoFor(factoryExts[i][name], foreign));
        }
        i := i + 1;
      }
      return None;
    }

    /**
     * The table `get_effect_infos_json` serialises: each loaded name with
     * its information. Every lookup of a loaded name succeeds.
     */
    method GetEffectInfos() returns (r: map<string, seq<AdvertisedParameter>>)
      ensures forall name :: name in r <==> name in AllNames(factoryExts)
      ensures forall name :: name in r ==>
        Lookup(factoryExts, name).Some? && r[name] == InfoFor(Lookup(factoryExts, name).value, foreign)
    {
      var names := GetLoadedEffectNames();
      r := map[];
      var i := 0;
      while i < |names|
        invariant i <= |names|
        invariant forall name :: name in r <==> name in multiset(names[..i])
        invariant forall name :: name in r ==>
          Lookup(factoryExts, name).Some? && r[name] == InfoFor(Lookup(factoryExts, name).value, foreign)
      {
        AllNamesMembers(factoryExts, names[i]);
        var info := GetEffectInfo(names[i]);
        r := r[names[i] := info.value];
        assert names[..i + 1] == names[..i] + [names[i]];
        i := i + 1;
      }
      assert names[..i] == names;
    }
  }
}
