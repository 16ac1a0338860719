/**
 * Global parameter indices: every advertised parameter of every effect on
 * the board gets one index, and the manager maps it back to the effect's
 * position and the parameter's index there. Per bind name it also keeps
 * the (parameter name, global index) list and the effect type.
 */
module Param {
  import opened Conf

  const U32_MAX: int := 0xffff_ffff

  type u32 = x: int | 0 <= x <= U32_MAX

  /** `EffectParameterMapping`: bind name, position in the effects vector, parameter index. */
  datatype EffectParameterMapping = EffectParameterMapping(bindName: string, effectIdx: nat, paramIdx: nat)

  /** `ParamNameAndIndex`: an advertised parameter's name and its global index. */
  type ParamNameAndIndex = (string, nat)

  /** `AsyncParamUpdate`: a global index and the new value. */
  type AsyncParamUpdate = (nat, ParamValue)

  /** One bind name's entry of the session information. */
  datatype SessionInfoEntry = SessionInfoEntry(effectName: string, globalIdxs: seq<ParamNameAndIndex>)

  /**
   * `OttersParamModifierContext` without its sending end: the session
   * information, bind name to entry.
   */
  datatype ParamModifierContext = ParamModifierContext(sessionInfo: map<string, SessionInfoEntry>)

  /** The message `set_flt_param_value` sends: a float value for the global index. */
  function SetFltParamValue(globalIdx: u32, value: real): (m: AsyncParamUpdate)
    ensures m.0 == globalIdx && m.1.F? && AsFlt(m.1) == value
  {
    (globalIdx, F(value))
  }

  /** The message `set_int_param_value` sends: an integer value for the global index. */
  function SetIntParamValue(globalIdx: u32, value: i32): (m: AsyncParamUpdate)
    ensures m.0 == globalIdx && m.1.N? && AsInt(m.1) == value && AsFlt(m.1) == value as real
  {
    (globalIdx, N(value))
  }

  /** `ParameterMappingManager`. */
  class ParameterMappingManager {
    var mappings: seq<EffectParameterMapping>
    var bindNameToGlobIdxs: map<string, seq<ParamNameAndIndex>>
    var bindNameToEffectType: map<string, string>

    /** `new`: no mappings and empty tables. */
    constructor New()
      ensures mappings == [] && bindNameToGlobIdxs == map[] && bindNameToEffectType == map[]
    {
      mappings := [];
      bindNameToGlobIdxs := map[];
      bindNameToEffectType := map[];
    }

    /** How many global indices have been handed out. */
    function Count(): nat
      reads this
    {
      |mappings|
    }

    /** `effect_and_param_idx`: the effect position and parameter index of a handed-out global index. */
    function EffectAndParamIdx(globalIdx: nat): (nat, nat)
      reads this
      requires globalIdx < Count()
    {
      (mappings[globalIdx].effectIdx, mappings[globalIdx].paramIdx)
    }

    /**
     * `new_parameter`: hands out the next global index, the number handed
     * out before, which then maps to the new mapping's pair; every earlier
     * index keeps its pair and the tables are untouched.
     */
    method NewParameter(m: EffectParameterMapping) returns (globalIdx: nat)
      modifies this
      ensures globalIdx == old(Count()) && Count() == globalIdx + 1
      ensures EffectAndParamIdx(globalIdx) == (m.effectIdx, m.paramIdx)
      ensures forall g :: 0 <= g < old(Count()) ==> mappings[g] == old(mappings[g])
      ensures mappings == old(mappings) + [m]
      ensures bindNameToGlobIdxs == old(bindNameToGlobIdxs) && bindNameToEffectType == old(bindNameToEffectType)
    {
      globalIdx := |mappings|;
      mappings := mappings + [m];
    }

    /** `set_global_idxs_for_bind_name`: records the list for the bind name, replacing any earlier one. */
    method SetGlobalIdxsForBindName(bindName: string, idxs: seq<ParamNameAndIndex>)
      modifies this
      ensures bindName in bindNameToGlobIdxs && GetGlobIdxsForBindName(bindName) == idxs
      ensures bindNameToGlobIdxs == old(bindNameToGlobIdxs)[bindName := idxs]
      ensures mappings == old(mappings) && bindNameToEffectType == old(bindNameToEffectType)
    {
      bindNameToGlobIdxs := bindNameToGlobIdxs[bindName := idxs];
    }

    /** `get_glob_idxs_for_bind_name`: the last list recorded; the bind name must have one. */
    function GetGlobIdxsForBindName(bindName: string): seq<ParamNameAndIndex>
      reads this
      requires bindName in bindNameToGlobIdxs
    {
      bindNameToGlobIdxs[bindName]
    }

    /** `set_effect_type_for_bind_name`: records the effect type, replacing any earlier one. */
    method SetEffectTypeForBindName(bindName: string, effectName: string)
      modifies this
      ensures bindName in bindNameToEffectType && GetEffectTypeForBindName(bindName) == effectName
      ensures bindNameToEffectType == old(bindNameToEffectType)[bindName := effectName]
      ensures mappings == old(mappings) && bindNameToGlobIdxs == old(bindNameToGlobIdxs)
    {
      bindNameToEffectType := bindNameToEffectType[bindName := effectName];
    }

    /** `get_effect_type_for_bind_name`: the type recorded; the bind name must have one. */
    function GetEffectTypeForBindName(bindName: string): string
      reads this
      requires bindName in bindNameToEffectType
    {
      bindNameToEffectType[bindName]
    }

    /**
     * `create_async_param_update_context`, its session information: one
     * entry per bind name with a recorded effect type, holding that type
     * and the name's index list. Every such name must have an index list,
     * or the lookup fails. The queue it opens is not part of this model.
     */
    method CreateAsyncParamUpdateContext() returns (ctx: ParamModifierContext)
      requires bindNameToEffectType.Keys <= bindNameToGlobIdxs.Keys
      ensures ctx.sessionInfo.Keys == bindNameToEffectType.Keys
      ensures forall b :: b in ctx.sessionInfo ==>
        ctx.sessionInfo[b] == SessionInfoEntry(GetEffectTypeForBindName(b), GetGlobIdxsForBindName(b))
    {
      var info: map<string, SessionInfoEntry> := map[];
      var todo := bindNameToEffectType.Keys;
      while todo != {}
        invariant todo <= bindNameToEffectType.Keys
        invariant info.Keys == bindNameToEffectType.Keys - todo
        invariant forall b :: b in info ==>
          info[b] == SessionInfoEntry(bindNameToEffectType[b], bindNameToGlobIdxs[b])
        decreases todo
      {
        var x :| x in todo;
        var effectName := bindNameToEffectType[x];
        var globalIdxs := bindNameToGlobIdxs[x];
        info := info[x := SessionInfoEntry(effectName, globalIdxs)];
        todo := todo - {x};
      }
      ctx := ParamModifierContext(info);
    }
  }
}
