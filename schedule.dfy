/** The weekly schedule: an ordered sequence of days, each a rest day or a list of exercises. */
module Schedule {
  /** An exercise of a training day. Its fields are not read by anything modelled here. */
  type Exercise(==)

  /** One slot of the week; `id` is its stable identity, `name` free display text. */
  datatype Day = Day(id: string, name: string, isRest: bool, exercises: seq<Exercise>)

  /** True when no day of `days` has the identity `id`. */
  predicate NoDayWithId(days: seq<Day>, id: string)
  {
    forall i :: 0 <= i < |days| ==> days[i].id != id
  }
}
