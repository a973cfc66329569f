/** JSON-like values: the raw operation payloads, the command parameters and the plugin results. */
module Values {
  import opened Wrappers

  /** Object keys: the field names the operation and command formats use, and every other text. */
  datatype Key =
    | KeyOp | KeyId | KeyPoint | KeyStart | KeyEnd | KeyPoints | KeyClosed | KeyMin | KeyMax | KeyCenter
    | KeyRadius | KeyTargets | KeyTranslation | KeyRotation | KeyScale | KeyAxis | KeyDegrees | KeyName
    | KeyLayer | KeyColor | KeyMaterialIndex | KeyVector | KeyCap | KeyDistance | KeyNormal | KeyCutters
    | KeyDeleteInput | KeyType | KeyParams | KeyX | KeyY | KeyZ | KeyWidth | KeyLength | KeyHeight
    | KeyNewName | KeyCurveId | KeyDirection | KeyPlane | KeyCornerStyle | KeyObjectIds | KeyDeleteSources
    | KeyBaseId | KeySubtractIds | KeyRotationAxis | KeyRotationDegrees | KeyScaleFactor | KeyResultId
    | KeyResultIds
    | OtherKey(text: string)

  // Finite floats are reals. `NonFinite` stands for NaN and the two infinities.
  datatype Value =
    | Null
    | Bool(b: bool)
    | Int(i: int)
    | Num(r: real)
    | NonFinite
    | Str(s: string)
    | List(items: seq<Value>)
    | Dict(entries: map<Key, Value>)

  datatype Vec3 = Vec3(x: real, y: real, z: real)

  const ORIGIN := Vec3(0.0, 0.0, 0.0)

  function Add(a: Vec3, b: Vec3): Vec3 {
    Vec3(a.x + b.x, a.y + b.y, a.z + b.z)
  }

  function Field(entries: map<Key, Value>, key: Key): Value {
    if key in entries then entries[key] else Null
  }

  function VecValue(v: Vec3): Value {
    List([Num(v.x), Num(v.y), Num(v.z)])
  }

  function VecValues(points: seq<Vec3>): Value {
    List(MapSeq(VecValue, points))
  }

  function StrValues(texts: seq<string>): Value {
    List(MapSeq(t => Str(t), texts))
  }

  function IntValues(numbers: seq<int>): Value {
    List(MapSeq(n => Int(n), numbers))
  }
}
