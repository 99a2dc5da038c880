/**
 * The idle-disconnect timers shared by `VoiceChannelManager` and the older
 * `RadioBot`: a guild -> job map where each launched coroutine job gets a
 * fresh id. A job is pending exactly while its id is in the map; cancelling a
 * job removes its entry. The 30-second delay is the gap between arming a
 * timer and the explicit fire step.
 */
module DisconnectTimers {
  import opened Util

  /** `delay(30_000)` before a timer re-checks the channel. */
  const DISCONNECT_DELAY_MS: nat := 30_000

  /** Job ids are below the next id to issue, and no job belongs to two guilds. */
  ghost predicate TimersOk(timers: map<string, nat>, next: nat)
  {
    && (forall g :: g in timers ==> timers[g] < next)
    && (forall g, h :: g in timers && h in timers && g != h ==> timers[g] != timers[h])
  }

  /** `cancelDisconnectTimer(g)`: the guild's job, if any, is cancelled and its entry removed. */
  function Cancel(timers: map<string, nat>, g: string): (r: map<string, nat>)
    ensures g !in r
    ensures g !in timers ==> r == timers
    ensures forall h :: h != g ==> (h in r <==> h in timers) && (h in r ==> r[h] == timers[h])
  {
    timers - {g}
  }

  /** `startDisconnectTimer(g)`: cancel the guild's job first, then register a new job `next`. */
  function Arm(timers: map<string, nat>, next: nat, g: string): map<string, nat>
  {
    Cancel(timers, g)[g := next]
  }

  /** Cancelling keeps the ids well formed, and the cancelled job is no longer pending. */
  lemma CancelStopsJob(timers: map<string, nat>, next: nat, g: string)
    requires TimersOk(timers, next)
    ensures TimersOk(Cancel(timers, g), next)
    ensures g in timers ==> timers[g] !in Cancel(timers, g).Values
  {
  }

  /**
   * Arming gives the guild exactly one pending job, a new one; the job it
   * replaces is no longer pending, and every other guild keeps its job.
   */
  lemma ArmReplacesJob(timers: map<string, nat>, next: nat, g: string)
    requires TimersOk(timers, next)
    ensures TimersOk(Arm(timers, next, g), next + 1)
    ensures g in Arm(timers, next, g) && Arm(timers, next, g)[g] == next
    ensures next !in timers.Values
    ensures g in timers ==> timers[g] !in Arm(timers, next, g).Values
    ensures forall h :: h != g ==> (h in Arm(timers, next, g) <==> h in timers) &&
                                   (h in timers ==> Arm(timers, next, g)[h] == timers[h])
  {
    CancelStopsJob(timers, next, g);
  }

  /** What a voice-state update does to the guild's timer. */
  datatype TimerAction = KeepTimer | ArmTimer | CancelTimer

  /**
   * `handleVoiceUpdate`: `humans` is the number of non-bot members in the bot's
   * channel, None when the bot is not in an audio channel; `stay` is the
   * guild's 24/7 flag (the older `RadioBot` has none and passes false).
   */
  function VoiceUpdateAction(humans: Option<nat>, stay: bool): (a: TimerAction)
    ensures humans.None? ==> a == KeepTimer
    ensures humans == Some(0) && !stay <==> a == ArmTimer
    ensures humans.Some? && humans.value > 0 <==> a == CancelTimer
  {
    match humans
    case None => KeepTimer
    case Some(n) => if n == 0 then (if stay then KeepTimer else ArmTimer) else CancelTimer
  }

  /** The timer map after an action for guild g. */
  function ApplyAction(timers: map<string, nat>, next: nat, g: string, a: TimerAction): map<string, nat>
  {
    match a
    case KeepTimer => timers
    case ArmTimer => Arm(timers, next, g)
    case CancelTimer => Cancel(timers, g)
  }

  /** The job counter after an action: only arming launches a job. */
  function NextAfter(next: nat, a: TimerAction): nat
  {
    if a == ArmTimer then next + 1 else next
  }

  /**
   * A voice update keeps the timers well formed and touches only its guild:
   * an empty channel outside 24/7 mode leaves one fresh pending job, an
   * occupied channel leaves none, and otherwise nothing changes.
   */
  lemma VoiceUpdateOutcome(timers: map<string, nat>, next: nat, g: string, humans: Option<nat>, stay: bool)
    requires TimersOk(timers, next)
    ensures var a := VoiceUpdateAction(humans, stay);
      var r := ApplyAction(timers, next, g, a);
      && TimersOk(r, NextAfter(next, a))
      && (humans == Some(0) && !stay ==> g in r && r[g] == next && next !in timers.Values)
      && (humans.Some? && humans.value > 0 ==> g !in r)
      && (humans.None? || (humans == Some(0) && stay) ==> r == timers)
      && (forall h :: h != g ==> (h in r <==> h in timers) && (h in r ==> r[h] == timers[h]))
  {
    var a := VoiceUpdateAction(humans, stay);
    match a
    case KeepTimer =>
    case ArmTimer => ArmReplacesJob(timers, next, g);
    case CancelTimer => CancelStopsJob(timers, next, g);
  }

  /**
   * The fire step: `humans` is the re-read number of non-bot members, None
   * when the guild is gone, the gateway is null, the bot is no longer in an
   * audio channel or a lookup throws; a null channel counts as 0. Audio is
   * stopped and the connection closed only for an empty channel.
   */
  predicate DisconnectsOnFire(humans: Option<nat>)
  {
    humans == Some(0)
  }
}
