/** The SAFE / LIVE switch per tenant: app/execution/submission_mode.py. */
module SubmissionModes {
  import opened Base

  type Tenant = string

  datatype Mode = Safe | Live
  datatype ModeState = ModeState(mode: Mode, changedAt: Option<int>, changedBy: Option<string>)

  /** What a process was asked to do with the switch. The mode of `set_mode` arrives as text. */
  datatype Command = SetMode(tenant: Tenant, mode: string, actor: string, at: int) | Reset

  function ParseMode(text: string): Option<Mode> {
    if text == "SAFE" then Some(Safe) else if text == "LIVE" then Some(Live) else None
  }

  predicate Accepted(cmd: Command) {
    cmd.SetMode? && cmd.tenant != "" && ParseMode(cmd.mode).Some?
  }

  /** The last command that counts for a tenant decides; before any, and after a reset, it is SAFE. */
  function LiveAfter(history: seq<Command>, tenant: Tenant): bool {
    if history == [] then false
    else
      var cmd := history[|history| - 1];
      if cmd.Reset? then false
      else if Accepted(cmd) && cmd.tenant == tenant then cmd.mode == "LIVE"
      else LiveAfter(history[..|history| - 1], tenant)
  }

  /** A tenant is LIVE only if someone switched that very tenant to LIVE in this process and neither a
      switch back nor a reset followed. */
  lemma {:induction false} LiveWasChosen(history: seq<Command>, tenant: Tenant)
    ensures LiveAfter(history, tenant) <==>
      exists i :: 0 <= i < |history| && Accepted(history[i]) && history[i].tenant == tenant && history[i].mode == "LIVE"
        && forall j :: i < j < |history| ==>
          !history[j].Reset? && !(Accepted(history[j]) && history[j].tenant == tenant)
  {
    if history != [] {
      var n := |history| - 1;
      LiveWasChosen(history[..n], tenant);
      var cmd := history[n];
      if !cmd.Reset? && !(Accepted(cmd) && cmd.tenant == tenant) && LiveAfter(history, tenant) {
        var i :| 0 <= i < n && Accepted(history[..n][i]) && history[..n][i].tenant == tenant
          && history[..n][i].mode == "LIVE"
          && forall j :: i < j < n ==>
            !history[..n][j].Reset? && !(Accepted(history[..n][j]) && history[..n][j].tenant == tenant);
        assert forall j :: i < j < |history| ==> j == n || history[j] == history[..n][j];
      }
    }
  }

  /** One process's switch. */
  class SubmissionMode {
    var states: map<Tenant, ModeState>
    ghost var history: seq<Command>

    ghost predicate Valid()
      reads this
    {
      && "" !in states
      && forall t :: (t in states && states[t].mode.Live?) <==> t != "" && LiveAfter(history, t)
    }

    constructor ()
      ensures Valid() && history == []
    {
      states := map[];
      history := [];
    }

    method GetState(tenant: Tenant) returns (state: ModeState)
      requires Valid()
      ensures state.mode.Live? <==> tenant != "" && LiveAfter(history, tenant)
    {
      state := if tenant in states then states[tenant] else ModeState(Safe, None, None);
    }

    method IsLiveEnabled(tenant: Option<Tenant>) returns (live: bool)
      requires Valid()
      ensures live <==> tenant.Some? && tenant.value != "" && LiveAfter(history, tenant.value)
    {
      if tenant.None? || tenant.value == "" { return false; }
      var state := GetState(tenant.value);
      live := state.mode.Live?;
    }

    method SetModeTo(tenant: Tenant, mode: string, actor: string, now: int) returns (state: Option<ModeState>)
      requires Valid()
      modifies this
      ensures Valid() && history == old(history) + [SetMode(tenant, mode, actor, now)]
      ensures state.Some? <==> tenant != "" && mode in {"SAFE", "LIVE"}
      ensures state.Some? ==>
        (state.value.mode.Live? <==> mode == "LIVE") && states == old(states)[tenant := state.value]
      ensures state.None? ==> states == old(states)
    {
      history := history + [SetMode(tenant, mode, actor, now)];
      assert history[..|history| - 1] == old(history);
      var parsed := ParseMode(mode);
      if tenant == "" || parsed.None? { return None; }
      var who := if actor == "" then "unknown" else actor;
      var s := ModeState(parsed.value, Some(now), Some(if |who| > 64 then who[..64] else who));
      states := states[tenant := s];
      state := Some(s);
    }

    method ResetAll()
      modifies this
      ensures Valid() && history == old(history) + [Reset]
      ensures forall t :: !LiveAfter(history, t)
    {
      history := history + [Reset];
      states := map[];
    }
  }
}
