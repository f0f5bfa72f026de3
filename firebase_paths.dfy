/** Paths of one farm's nodes in the realtime database
    (`FirebasePaths.kt`): `farms/{farmId}/...`. */
module FirebasePaths {

  /** `farms/{farmId}/sensors/current`. */
  function SensorsPath(farmId: string): (r: string)
    ensures |r| == |farmId| + 22
    ensures r[..6] == "farms/" && r[6..6 + |farmId|] == farmId
    ensures r[6 + |farmId|..] == "/sensors/current"
  {
    "farms/" + farmId + "/sensors/current"
  }

  /** `farms/{farmId}/irrigation`. */
  function IrrigationPath(farmId: string): (r: string)
    ensures |r| == |farmId| + 17
    ensures r[..6] == "farms/" && r[6..6 + |farmId|] == farmId
    ensures r[6 + |farmId|..] == "/irrigation"
  {
    "farms/" + farmId + "/irrigation"
  }

  /** Different farms never share the irrigation node. */
  lemma {:induction false} IrrigationPathInjective(a: string, b: string)
    requires IrrigationPath(a) == IrrigationPath(b)
    ensures a == b
  {
    var p := IrrigationPath(a);
    assert |a| == |b|;
    assert a == p[6..6 + |a|] == b;
  }

  /** Different farms never share the sensors node. */
  lemma {:induction false} SensorsPathInjective(a: string, b: string)
    requires SensorsPath(a) == SensorsPath(b)
    ensures a == b
  {
    var p := SensorsPath(a);
    assert |a| == |b|;
    assert a == p[6..6 + |a|] == b;
  }

  /** The sensors node of one farm is never the irrigation node of any
      farm, so sensor updates and irrigation writes never overwrite each
      other. */
  lemma {:induction false} SensorsNotIrrigation(a: string, b: string)
    ensures SensorsPath(a) != IrrigationPath(b)
  {
    var s, i := SensorsPath(a), IrrigationPath(b);
    assert s[|s| - 1] == 't';
    assert i[|i| - 1] == 'n';
  }

  /** For one farm, neither node lies inside the other. */
  lemma {:induction false} NeitherIsPrefix(farmId: string)
    ensures !(SensorsPath(farmId) <= IrrigationPath(farmId))
    ensures !(IrrigationPath(farmId) <= SensorsPath(farmId))
  {
    var s, i := SensorsPath(farmId), IrrigationPath(farmId);
    assert s[7 + |farmId|] == 's';
    assert i[7 + |farmId|] == 'i';
  }
}
