/**
 What the host loop does with the signals it drains at the top of each iteration: user activity,
 battery state, and changes of the embedding model, each of which must be followed by a resolution
 of the model that began after it. Installs happen on other threads at any time.
 */
module Resolutions {
  import opened Common

  // The models folder; each install makes a newer version and then reports a change.
  class Models {
    var installed: nat

    method Install()
      modifies this
      ensures installed >= old(installed)
    {
      var more: nat :| true;
      installed := installed + more;
    }
  }

  datatype Observation = UserActive | OnBattery(state: bool) | EmbeddingModelChanged

  // How a resolution ended; `version` is the one it found installed.
  datatype Resolved = Model(version: nat) | Unresolved | Crashed

  // The battery source reports its state, so the last report is the state.
  ghost function LastBattery(initial: bool, observations: seq<Observation>): bool {
    if observations == [] then initial
    else
      var last := observations[|observations| - 1];
      if last.OnBattery? then last.state else LastBattery(initial, observations[..|observations| - 1])
  }

  const USER_IDLE_TIMEOUT: nat := 2_000  // milliseconds

  class Signals {
    const models: Models
    const canResolve: bool
    var pending: Option<nat>          // the running resolution: the version installed when it began
    var resolveAgain: bool
    var embed: Option<nat>            // the version the loop embeds with
    var lastUserActivity: Option<nat>
    var onBattery: bool
    ghost var reported: Option<nat>   // the version installed when a change was last observed
    ghost var began: nat              // the version installed when a resolution last began
    ghost var started: nat            // how many resolutions began, and how many were taken off
    ghost var finished: nat
    ghost var last: Option<Resolved>  // how the last finished resolution ended
    ghost var backfilled: set<nat>    // versions missing embeddings were queued for
    ghost var activity: set<nat>      // when user activity was observed
    ghost var clock: nat

    ghost predicate Valid()
      reads this, models
    {
      && began <= models.installed
      && (pending.Some? ==> pending.value == began && canResolve)
      && started == finished + (if pending.Some? then 1 else 0)
      && (resolveAgain ==> pending.Some?)
      && (reported.Some? ==> reported.value <= models.installed)
      && Newest() && Serial() && Active()
    }

    // No change observed after the last beginning, unless another one will follow.
    ghost predicate Newest()
      reads this
    {
      canResolve && !resolveAgain && reported.Some? ==> began >= reported.value
    }

    // Resolutions follow one another, so what one finds is never older than what the last found.
    ghost predicate Serial()
      reads this, models
    {
      && (embed.Some? ==> embed.value in backfilled && embed.value <= models.installed)
      && (pending.Some? && embed.Some? ==> embed.value <= began)
      && (pending.None? && last.Some? && last.value.Model? ==> embed.Some? && embed.value >= began)
    }

    ghost predicate Active()
      reads this
    {
      && (forall t <- activity :: t <= clock)
      && (lastUserActivity.Some? ==> lastUserActivity.value in activity
                                     && forall t <- activity :: t <= lastUserActivity.value)
      && (lastUserActivity.None? ==> forall t <- activity :: clock - t >= USER_IDLE_TIMEOUT)
    }

    constructor (models: Models, canResolve: bool, initial: Option<nat>)
      requires initial.Some? ==> initial.value <= models.installed
      ensures Valid() && this.models == models && this.canResolve == canResolve && embed == initial
      ensures pending == None && reported == None
    {
      this.models := models;
      this.canResolve := canResolve;
      pending, resolveAgain, embed, lastUserActivity, onBattery := None, false, initial, None, false;
      reported, began, last, activity, clock := None, models.installed, None, {}, 0;
      started, finished := 0, 0;
      backfilled := if initial.Some? then {initial.value} else {};
    }

    // What the newest observed change requires, whenever no resolution is running.
    ghost predicate UpToDate()
      reads this
    {
      canResolve && pending.None? && reported.Some? ==>
        && began >= reported.value
        && (last.Some? && last.value.Model? ==> embed.Some? && embed.value >= reported.value)
    }

    lemma LatestWins()
      requires Valid()
      ensures UpToDate()
    {
    }

    // A resolution of its own thread: it reads what is installed some time after it began.
    method Begin()
      requires canResolve && pending.None?
      modifies `pending, `began, `started
      ensures pending == Some(models.installed) && began == models.installed && started == old(started) + 1
    {
      pending := Some(models.installed);
      began := models.installed;
      started := started + 1;
    }

    method Observe(observation: Observation, now: nat)
      requires Valid() && now >= clock
      modifies `pending, `resolveAgain, `lastUserActivity, `onBattery, `reported, `began, `started, `activity, `clock
      ensures Valid() && clock == now
      ensures onBattery == if observation.OnBattery? then observation.state else old(onBattery)
      ensures activity == old(activity) + if observation.UserActive? then {now} else {}
      ensures reported == if observation.EmbeddingModelChanged? then Some(models.installed) else old(reported)
      ensures old(pending).Some? ==> pending == old(pending)
      ensures pending.Some? ==> pending == old(pending) || observation.EmbeddingModelChanged?
      // A change begins a resolution, or makes another follow the one that runs.
      ensures observation.EmbeddingModelChanged? && canResolve ==>
                if old(pending).None? then pending == Some(models.installed) && !resolveAgain else resolveAgain
      ensures !observation.EmbeddingModelChanged? ==> resolveAgain == old(resolveAgain)
    {
      clock := now;
      match observation
      case UserActive =>
        lastUserActivity := Some(now);
        activity := activity + {now};
      case OnBattery(state) => onBattery := state;
      case EmbeddingModelChanged =>
        if canResolve {
          if pending.Some? {
            resolveAgain := true;
            reported := Some(models.installed);
          } else {
            Begin();
            reported := Some(models.installed);
          }
        } else {
          reported := Some(models.installed);
        }
    }

    // A finished resolution is taken off; a change reported meanwhile begins the next at once.
    method Poll(outcome: Resolved)
      requires Valid() && pending.Some?
      requires outcome.Model? ==> pending.value <= outcome.version <= models.installed
      modifies `pending, `resolveAgain, `embed, `began, `last, `backfilled, `started, `finished
      ensures Valid() && !resolveAgain && last == Some(outcome)
      ensures pending == if old(resolveAgain) then Some(models.installed) else None
      ensures embed == if outcome.Model? then Some(outcome.version) else old(embed)
      ensures old(embed).Some? ==> embed.Some? && embed.value >= old(embed).value
      ensures backfilled == old(backfilled) + if outcome.Model? then {outcome.version} else {}
    {
      pending := None;
      finished := finished + 1;
      last := Some(outcome);
      if outcome.Model? {
        backfilled := backfilled + {outcome.version};
        embed := Some(outcome.version);
      }
      if resolveAgain {
        resolveAgain := false;
        Begin();
      }
    }

    // Activity is reported, its end is not: it is inferred from the time passed.
    method UserIsActive(now: nat) returns (active: bool)
      requires Valid() && now >= clock
      modifies `lastUserActivity, `clock
      ensures Valid() && clock == now
      ensures active <==> exists t <- activity :: now - t < 2_000
    {
      clock := now;
      active := lastUserActivity.Some? && now - lastUserActivity.value < USER_IDLE_TIMEOUT;
      assert active ==> lastUserActivity.value in activity;
      assert !active ==> forall t <- activity :: now - t >= USER_IDLE_TIMEOUT;
      if lastUserActivity.Some? && !active {
        lastUserActivity := None;
      }
    }

    method ObserveAll(observations: seq<Observation>, now: nat)
      requires Valid() && now >= clock
      modifies this, models
      ensures Valid() && clock <= now && embed == old(embed) && models.installed >= old(models.installed)
      ensures Seen(old(onBattery), old(activity), old(reported), old(models.installed), observations, now)
    {
      for i := 0 to |observations|
        invariant Valid() && now >= clock && embed == old(embed) && models.installed >= old(models.installed)
        invariant Seen(old(onBattery), old(activity), old(reported), old(models.installed), observations[..i], now)
      {
        assert observations[..i + 1] == observations[..i] + [observations[i]];
        Meanwhile();
        Observe(observations[i], now);
      }
      assert observations[..|observations|] == observations;
    }

    // Every observation left its mark, and nothing else did.
    ghost predicate Seen(battery: bool, times: set<nat>, change: Option<nat>, installed: nat, observations: seq<Observation>, now: nat)
      reads this
    {
      && onBattery == LastBattery(battery, observations)
      && activity == times + (if UserActive in observations then {now} else {})
      && if EmbeddingModelChanged in observations then reported.Some? && reported.value >= installed else reported == change
    }

    // One iteration: every observation that has arrived, then a resolution that has finished.
    method Drain(observations: seq<Observation>, now: nat)
      requires Valid() && now >= clock
      modifies this, models
      ensures Valid() && clock <= now && UpToDate()
      ensures Seen(old(onBattery), old(activity), old(reported), old(models.installed), observations, now)
      ensures old(embed).Some? ==> embed.Some? && embed.value >= old(embed).value
    {
      ObserveAll(observations, now);
      Meanwhile();
      var finished: bool := *;
      if finished && pending.Some? {
        var outcome := Finish();
        Poll(outcome);
      }
      LatestWins();
    }

    method Meanwhile()
      requires Valid()
      modifies models
      ensures Valid() && models.installed >= old(models.installed)
    {
      models.Install();
    }

    // What the finished resolution found: something installed no earlier than it began.
    method Finish() returns (outcome: Resolved)
      requires Valid() && pending.Some?
      ensures outcome.Model? ==> pending.value <= outcome.version <= models.installed
    {
      var found: nat :| pending.value <= found <= models.installed;
      if {
        case true => outcome := Model(found);
        case true => outcome := Unresolved;
        case true => outcome := Crashed;
      }
    }
  }
}
