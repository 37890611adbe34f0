/** The app's end of a command (CommandRepositoryImpl.kt): one public id for each user action, one
    automatic retry under a fresh id, and the map that brings the retry's results back. */
module CommandRepositories {

  const COMMAND_TIMEOUT_MS := 30_000

  datatype CommandStatus = ACCEPTED | EXECUTED | CONFIRMED | TIMEOUT | REJECTED | BLOCKED

  predicate IsTerminal(status: CommandStatus) {
    status == CONFIRMED || status == TIMEOUT || status == REJECTED || status == BLOCKED
  }

  type Statuses = map<string, CommandStatus>

  datatype Repository = Repository(states: Statuses, retries: map<string, string>)

  /** What watchForTimeout does when its delay is over. */
  datatype Verdict = LeaveAlone | GiveUp | Retry

  function VerdictFor(r: Repository, publicId: string, isRetry: bool): Verdict {
    if publicId !in r.states || IsTerminal(r.states[publicId]) then LeaveAlone
    else if isRetry then GiveUp else Retry
  }

  function Shown(r: Repository, publicId: string, status: CommandStatus): Repository {
    r.(states := r.states[publicId := status])
  }

  /** The id a result is shown under. */
  function PublicId(r: Repository, serverId: string): string {
    if serverId in r.retries then r.retries[serverId] else serverId
  }

  function AfterResult(r: Repository, serverId: string, status: CommandStatus): Repository {
    var shown := Shown(r, PublicId(r, serverId), status);
    if serverId in r.retries && IsTerminal(status) then shown.(retries := r.retries - {serverId}) else shown
  }

  function AfterPostFailed(r: Repository, publicId: string, localOnly: bool): Repository {
    Shown(r, publicId, if localOnly then BLOCKED else REJECTED)
  }

  function AfterRetryFailed(r: Repository, publicId: string, retryId: string): Repository {
    Shown(r, publicId, TIMEOUT).(retries := r.retries - {retryId})
  }

  class CommandRepository {
    var commandStates: Statuses
    var retryServerIdToPublicId: map<string, string>

    constructor ()
      ensures View() == Repository(map[], map[])
    {
      commandStates, retryServerIdToPublicId := map[], map[];
    }

    ghost function View(): Repository
      reads this
    {
      Repository(commandStates, retryServerIdToPublicId)
    }

    /** sendCommand, up to the POST. */
    method BeginSend(publicCommandId: string)
      modifies this
      ensures View() == Shown(old(View()), publicCommandId, ACCEPTED)
    {
      commandStates := commandStates[publicCommandId := ACCEPTED];
    }

    /** sendCommand, when the POST has failed. */
    method FirstPostFailed(publicCommandId: string, localOnly: bool)
      modifies this
      ensures View() == AfterPostFailed(old(View()), publicCommandId, localOnly)
    {
      var status := if localOnly then BLOCKED else REJECTED;
      commandStates := commandStates[publicCommandId := status];
    }

    /** watchForTimeout, after its delay; a retry gets its id noted before it is posted. */
    method WatchElapsed(publicCommandId: string, isRetry: bool, freshId: string) returns (verdict: Verdict)
      modifies this
      ensures verdict == VerdictFor(old(View()), publicCommandId, isRetry)
      ensures View() == match verdict
                        case LeaveAlone => old(View())
                        case GiveUp => Shown(old(View()), publicCommandId, TIMEOUT)
                        case Retry => old(View()).(retries := old(retryServerIdToPublicId)[freshId := publicCommandId])
    {
      if publicCommandId !in commandStates || IsTerminal(commandStates[publicCommandId]) {
        return LeaveAlone;
      }
      if isRetry {
        commandStates := commandStates[publicCommandId := TIMEOUT];
        return GiveUp;
      }
      retryServerIdToPublicId := retryServerIdToPublicId[freshId := publicCommandId];
      return Retry;
    }

    method RetryPostFailed(publicCommandId: string, retryId: string)
      modifies this
      ensures View() == AfterRetryFailed(old(View()), publicCommandId, retryId)
    {
      retryServerIdToPublicId := retryServerIdToPublicId - {retryId};
      commandStates := commandStates[publicCommandId := TIMEOUT];
    }

    /** The collector of WebSocket command results. */
    method OnCommandResult(serverId: string, status: CommandStatus)
      modifies this
      ensures View() == AfterResult(old(View()), serverId, status)
    {
      var isMapped := serverId in retryServerIdToPublicId;
      var publicId := if isMapped then retryServerIdToPublicId[serverId] else serverId;
      commandStates := commandStates[publicId := status];
      if isMapped && IsTerminal(status) {
        retryServerIdToPublicId := retryServerIdToPublicId - {serverId};
      }
    }
  }
}
