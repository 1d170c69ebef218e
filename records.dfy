// The shapes of the tabular records the loader hands to the views
// (src/types.d.ts). The CSV loader trims every cell and keeps it as text.

module Records {
  import opened Common

  /** One move of a person from a source place to a target place. */
  datatype Trajectory = Trajectory(
    trajNumber: string,
    personId: string,
    sourceId: string,
    targetId: string,
    movingDate: string,
    dataAccuracy: string,
    trajectoryType: Option<string>)

  /**
   * A place. `distance` is the number `parseFloat` reads from the distance
   * cell; latitude and longitude are never read by the views and are omitted.
   */
  datatype Place = Place(
    id: string,
    name: string,
    placeType: string,
    distance: real,
    accuracy: string)

  /** Per-person rendering settings; `exponent` is kept as text. */
  datatype Settings = Settings(personId: string, exponent: string)
}
