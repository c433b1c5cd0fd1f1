/** Which firings the store accepts (mutedLocked in internal/alert/store.go), told by the sends
    and resolves so far and not by the store's maps. */
module Mutes {
  import opened Wrappers
  import opened Alerts
  import opened AlertStore
  import opened StoreRuns

  /** When the fingerprint was last sent or seeded, unless a resolve or Forget came after. */
  function MuteNext(cfg: Config, c: Core, e: Event, fp: string, last: Option<Time>): Option<Time> {
    if (e.Send? || e.SendEvent?) && e.a.fingerprint == fp && Out(cfg, c, e).accepted then Some(e.now)
    else if e == Seed(fp, e.now) then Some(e.now)
    else if fp in Out(cfg, c, e).resolved || e == Forget(fp, e.now) then None
    else last
  }

  function LastMute(cfg: Config, c: Core, run: seq<Event>, fp: string, last: Option<Time>): Option<Time>
    decreases |run|
  {
    if run == [] then last else LastMute(cfg, Step(cfg, c, run[0]), run[1..], fp, MuteNext(cfg, c, run[0], fp, last))
  }

  /** The record is the last mute, or that is over and its record was cleaned up. */
  predicate Records(cfg: Config, c: Core, fp: string, last: Option<Time>, now: Time) {
    && (fp in c.lastSent ==> last == Some(c.lastSent[fp]) && c.lastSent[fp] <= now)
    && (fp !in c.lastSent && last.Some? ==> now - last.value >= cfg.muteWindow)
  }

  lemma RecordsSend(cfg: Config, c: Core, e: Event, fp: string, last: Option<Time>, now: Time)
    requires Records(cfg, c, fp, last, now) && now <= e.now && (e.Send? || e.SendEvent? || e.Seed?)
    ensures Records(cfg, Step(cfg, c, e), fp, MuteNext(cfg, c, e, fp, last), e.now)
  {
  }

  lemma RecordsDrop(cfg: Config, c: Core, e: Event, fp: string, last: Option<Time>, now: Time)
    requires Records(cfg, c, fp, last, now) && now <= e.now && (e.Sweep? || e.ObjectGone? || e.Forget?)
    ensures Records(cfg, Step(cfg, c, e), fp, MuteNext(cfg, c, e, fp, last), e.now)
  {
    ResolveEndsStay(cfg, c, e, fp);
  }

  lemma RecordsRest(cfg: Config, c: Core, e: Event, fp: string, last: Option<Time>, now: Time)
    requires Records(cfg, c, fp, last, now) && now <= e.now
    requires e.Touch? || e.Clean? || e.Escalate? || e.Reboot?
    ensures Records(cfg, Step(cfg, c, e), fp, MuteNext(cfg, c, e, fp, last), e.now)
  {
  }

  lemma {:induction false} RecordsAlways(cfg: Config, c: Core, run: seq<Event>, fp: string, last: Option<Time>, now: Time)
    requires Records(cfg, c, fp, last, now) && Ordered(run, now)
    ensures Records(cfg, After(cfg, c, run), fp, LastMute(cfg, c, run, fp, last), if run == [] then now else run[|run| - 1].now)
    decreases |run|
  {
    if run != [] {
      var e := run[0];
      if e.Send? || e.SendEvent? || e.Seed? {
        RecordsSend(cfg, c, e, fp, last, now);
      } else if e.Sweep? || e.ObjectGone? || e.Forget? {
        RecordsDrop(cfg, c, e, fp, last, now);
      } else {
        RecordsRest(cfg, c, e, fp, last, now);
      }
      RecordsAlways(cfg, Step(cfg, c, e), run[1..], fp, MuteNext(cfg, c, e, fp, last), e.now);
    }
  }

  lemma {:induction false} OrderedSnoc(run: seq<Event>, e: Event, from: Time)
    requires Ordered(run + [e], from)
    ensures Ordered(run, from) && (if run == [] then from else run[|run| - 1].now) <= e.now
    decreases |run|
  {
    if run != [] {
      assert (run + [e])[1..] == run[1..] + [e];
      OrderedSnoc(run[1..], e, run[0].now);
    }
  }

  /** Over every run, cleaning and restarts included: a firing or an event is accepted if and
      only if its fingerprint was not sent or seeded within the mute window, or has been
      resolved or forgotten since. */
  lemma AcceptedExactlyWhenUnmuted(cfg: Config, run: seq<Event>, e: Event, from: Time)
    requires Ordered(run + [e], from) && (e.Send? || e.SendEvent?)
    ensures var last := LastMute(cfg, EMPTY_CORE, run, e.a.fingerprint, None);
      Out(cfg, After(cfg, EMPTY_CORE, run), e).accepted <==> last.None? || e.now - last.value >= cfg.muteWindow
  {
    OrderedSnoc(run, e, from);
    RecordsAlways(cfg, EMPTY_CORE, run, e.a.fingerprint, None, from);
  }
}
