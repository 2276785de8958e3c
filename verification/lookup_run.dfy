/** What the two lookup screens derive from the state of one lookup run:
    the completeness indicator, the response time and the main area. */
module LookupRun {

  import opened Wrappers
  import opened MusicKit

  datatype Indicator = Complete | Partial

  /** The indicator under the counters: shown once a run has started and is
      no longer loading; complete exactly when the retrieved count equals the
      requested count. */
  function IndicatorOf(isLoading: bool, startTime: Option<Instant>, retrieved: nat, requested: nat): (r: Option<Indicator>)
    ensures r.Some? <==> !isLoading && startTime.Some?
    ensures r == Some(Complete) <==> !isLoading && startTime.Some? && retrieved == requested
    ensures r == Some(Partial) <==> !isLoading && startTime.Some? && retrieved != requested
  {
    if !isLoading && startTime.Some? then Some(if retrieved == requested then Complete else Partial)
    else None
  }

  /** The response-time cell: a dash, or the elapsed milliseconds. */
  datatype ResponseTime = Dash | Millis(ms: int)

  function ResponseTimeOf(startTime: Option<Instant>, endTime: Option<Instant>): (r: ResponseTime)
    ensures r.Millis? <==> startTime.Some? && endTime.Some?
    ensures r.Millis? ==> startTime.value + r.ms == endTime.value
  {
    match (startTime, endTime)
    case (Some(start), Some(end)) => Millis(end - start)
    case _ => Dash
  }

  /** The main area of a lookup screen. */
  datatype Display = Loading | Results | NothingFound | Idle

  function DisplayOf(isLoading: bool, hasResults: bool, startTime: Option<Instant>): (r: Display)
    ensures r == Loading <==> isLoading
    ensures r == Results <==> !isLoading && hasResults
    ensures r == NothingFound <==> !isLoading && !hasResults && startTime.Some?
  {
    if isLoading then Loading
    else if hasResults then Results
    else if startTime.Some? then NothingFound
    else Idle
  }
}
