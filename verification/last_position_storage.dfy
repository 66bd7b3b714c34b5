/** The last viewed position and place name, kept in UserDefaults under two
    fixed keys. UserDefaults is modelled as a map; JSON text is modelled by
    its tree. */
module LastPositionStorage {
  import opened Outcomes
  import opened JsonTree
  import opened TideModels

  /** A stored value: `Data` (seen through JSON parsing: the tree, or
      nothing when the bytes are not a JSON text), a string, or anything else. */
  datatype Stored = DataValue(parsed: Option<Json>) | StringValue(text: string) | OtherValue

  type Defaults = map<string, Stored>

  const PositionKey := "lastMapPosition"
  const NameKey := "lastLocationName"

  datatype Saved = Saved(position: MapPosition, locationName: string)

  /** `save(position:locationName:)`: both keys are written when the
      position encodes; nothing is written when encoding throws. */
  function Save(d: Defaults, position: MapPosition, locationName: string): (d': Defaults)
    ensures IsFinitePosition(position) ==>
      && PositionKey in d' && d'[PositionKey] == DataValue(Some(EncodePosition(position).value))
      && NameKey in d' && d'[NameKey] == StringValue(locationName)
    ensures !IsFinitePosition(position) ==> d' == d
    ensures forall k :: k != PositionKey && k != NameKey ==> (k in d' <==> k in d) && (k in d ==> d'[k] == d[k])
  {
    match EncodePosition(position)
    case Ok(j) => d[PositionKey := DataValue(Some(j))][NameKey := StringValue(locationName)]
    case Err(_) => d
  }

  /** `load()`: nothing unless the position key holds data and the name key
      holds a string, and nothing when the data does not decode. */
  function Load(d: Defaults): (r: Option<Saved>)
    ensures PositionKey !in d || NameKey !in d ==> r.None?
    ensures r.Some? ==> d[PositionKey].DataValue? && d[NameKey] == StringValue(r.value.locationName)
    ensures r.Some? ==> d[PositionKey].parsed.Some? && DecodePosition(d[PositionKey].parsed.value) == Ok(r.value.position)
  {
    if PositionKey !in d || NameKey !in d then None
    else match (d[PositionKey], d[NameKey])
      case (DataValue(Some(j)), StringValue(name)) =>
        (match DecodePosition(j)
         case Ok(p) => Some(Saved(p, name))
         case Err(_) => None)
      case _ => None
  }

  /** `clear()`. */
  function Clear(d: Defaults): (d': Defaults)
    ensures PositionKey !in d' && NameKey !in d'
    ensures forall k :: k != PositionKey && k != NameKey ==> (k in d' <==> k in d) && (k in d ==> d'[k] == d[k])
  {
    d - {PositionKey, NameKey}
  }

  // ---- properties ----

  /** Loading returns what was last saved, whatever the store held before. */
  lemma LoadAfterSave(d: Defaults, p: MapPosition, name: string)
    requires IsFinitePosition(p)
    ensures Load(Save(d, p, name)) == Some(Saved(p, name))
  {
  }

  /** A saved position is equal, by the app's own `==`, to the one loaded. */
  lemma LoadedPositionEqualsSaved(d: Defaults, p: MapPosition, name: string)
    requires IsFinitePosition(p)
    ensures Load(Save(d, p, name)).Some?
    ensures SamePosition(Load(Save(d, p, name)).value.position, p)
  {
  }

  /** Nothing can be loaded after `clear`. */
  lemma LoadAfterClear(d: Defaults)
    ensures Load(Clear(d)) == None
  {
  }

  /** A position that cannot be encoded leaves the previous save in place. */
  lemma FailedSaveKeepsPrevious(d: Defaults, p: MapPosition, name: string)
    requires !IsFinitePosition(p)
    ensures Load(Save(d, p, name)) == Load(d)
  {
  }
}
