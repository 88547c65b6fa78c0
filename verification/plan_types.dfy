/** The training plan records shared by the plan generator, the plan adapter and the monthly template. */
module PlanTypes {
  import opened Common

  datatype SessionKind = Endurance | Tempo | Threshold | Vo2max | Rest | Recovery

  /** One planned session; `date` is an instant in milliseconds, `duration` in minutes, `intensity` on a 1-10 scale. */
  datatype Session = Session(
    id: string,
    date: int,
    kind: SessionKind,
    duration: int,
    intensity: int,
    description: string,
    completed: bool,
    completedActivityId: Option<string>)

  /** The array of sessions a plan holds; the adapter edits and extends it in place. */
  class SessionList {
    var items: seq<Session>

    constructor (items: seq<Session>)
      ensures this.items == items
    {
      this.items := items;
    }

    /** Rewrites the session at index `i`, as the adapter's in-place edits do. */
    method Replace(i: nat, x: Session)
      requires i < |items|
      modifies this
      ensures items == old(items)[i := x]
    {
      items := items[i := x];
    }

    /** `sessions.push(x)`. */
    method Push(x: Session)
      modifies this
      ensures items == old(items) + [x]
    {
      items := items + [x];
    }
  }

  /**
   * A plan: its fields are copied by value (`{ ...plan }`), but the session array is shared by
   * every copy. Timestamps are instants in milliseconds.
   */
  datatype TrainingPlan = TrainingPlan(
    id: string,
    userId: string,
    sessions: SessionList,
    createdAt: int,
    updatedAt: int)
}
