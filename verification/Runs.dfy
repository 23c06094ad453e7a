// The runs row and the partial updates a pass applies to it.
module Runs {
  import opened Instants
  import opened Options

  datatype Mode = Soft | Hard

  datatype Action = Nothing | Reboot | SkippedCooldown | SkippedDisabled

  datatype Outcome =
    | Fine
    | RebootFailed
    | Timeout
    | Skipped
    | RebootDisabled
    | OnlyDegraded
    | Unconfirmed
    | Unsustained

  // Timestamps are stored as whole seconds; an unset column is None.
  datatype Run = Run(
    startedAt: int,
    mode: Mode,
    internetOk: Option<bool>,
    action: Action,
    rebootStartedAt: Option<int>,
    routerDownAt: Option<int>,
    routerUpAt: Option<int>,
    internetRestoredAt: Option<int>,
    finishedAt: Option<int>,
    outcome: Option<Outcome>,
    error: Option<string>)

  datatype RunUpdate = RunUpdate(
    internetOk: Option<bool>,
    action: Option<Action>,
    rebootStartedAt: Option<Instant>,
    routerDownAt: Option<Instant>,
    routerUpAt: Option<Instant>,
    internetRestoredAt: Option<Instant>,
    finishedAt: Option<Instant>,
    outcome: Option<Outcome>,
    error: Option<string>)

  const KEEP := RunUpdate(None, None, None, None, None, None, None, None, None)

  function Fresh(startedAt: Instant, mode: Mode, internetOk: Option<bool>): Run {
    Run(WholeSeconds(startedAt), mode, internetOk, Nothing, None, None, None, None, None, None, None)
  }

  function Or<T>(update: Option<T>, current: Option<T>): Option<T> {
    if update.Some? then update else current
  }

  function OrAt(update: Option<Instant>, current: Option<int>): Option<int> {
    if update.Some? then Some(WholeSeconds(update.value)) else current
  }

  // UPDATE with exactly the columns the update sets.
  function Apply(r: Run, u: RunUpdate): Run {
    r.(internetOk := Or(u.internetOk, r.internetOk),
       action := if u.action.Some? then u.action.value else r.action,
       rebootStartedAt := OrAt(u.rebootStartedAt, r.rebootStartedAt),
       routerDownAt := OrAt(u.routerDownAt, r.routerDownAt),
       routerUpAt := OrAt(u.routerUpAt, r.routerUpAt),
       internetRestoredAt := OrAt(u.internetRestoredAt, r.internetRestoredAt),
       finishedAt := OrAt(u.finishedAt, r.finishedAt),
       outcome := Or(u.outcome, r.outcome),
       error := Or(u.error, r.error))
  }
}
