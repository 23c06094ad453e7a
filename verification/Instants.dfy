// Instants in time, as whole nanoseconds since the Unix epoch.
module Instants {

  type Instant = int

  const SECOND: int := 1_000_000_000
  const MILLISECOND: int := 1_000_000

  // The column value a stored timestamp keeps. RFC 3339 text without a
  // fraction rounds towards the past, also before 1970, and so does `/` here.
  function WholeSeconds(t: Instant): int {
    t / SECOND
  }

  function UnixMilli(t: Instant): int {
    t / MILLISECOND
  }

  // A stored second, read back as an instant.
  function Parsed(seconds: int): Instant {
    seconds * SECOND
  }

  // A stored second is the last whole one not past the instant, and an id's
  // millisecond likewise.
  lemma StoredTimesAreFloors(t: Instant)
    ensures WholeSeconds(t) * 1_000_000_000 <= t < (WholeSeconds(t) + 1) * 1_000_000_000
    ensures UnixMilli(t) * 1_000_000 <= t < (UnixMilli(t) + 1) * 1_000_000
    ensures WholeSeconds(Parsed(WholeSeconds(t))) == WholeSeconds(t) && Parsed(WholeSeconds(t)) <= t
  {
  }

  // Truncating to seconds keeps a lower bound that is itself a stored second.
  lemma TruncationKeepsSpacing(t: Instant, stored: int, gap: int)
    requires t - Parsed(stored) >= gap
    ensures WholeSeconds(t) >= stored + WholeSeconds(gap)
  {
  }

  lemma SecondOfMilli(t: Instant)
    ensures UnixMilli(t) / 1000 == WholeSeconds(t)
  {
  }

  lemma MillisFollowInstants(a: Instant, b: Instant)
    requires a <= b
    ensures UnixMilli(a) <= UnixMilli(b) && WholeSeconds(a) <= WholeSeconds(b)
  {
  }
}
