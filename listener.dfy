/**
 * The server task slot. The application keeps at most one HTTP server task:
 * `restart_http_server` aborts the one in the slot and spawns a fresh one
 * from the current settings, and `save_http_bindings` validates, overwrites
 * the settings, persists them and restarts, in that order.
 */
module Listener {
  import opened Wrappers
  import opened Text
  import opened Settings
  import opened Http

  /** A spawned server task (`JoinHandle<()>`): the settings it binds and the gate it serves behind. */
  class ServerTask {
    const settings: HttpSettings
    const listening: ListeningGate
    var aborted: bool

    /** `spawn_http_server`: the task starts on its own; binding and serving happen inside it. */
    constructor (listening: ListeningGate, settings: HttpSettings)
      ensures this.settings == settings && this.listening == listening && !aborted
    {
      this.settings := settings;
      this.listening := listening;
      aborted := false;
    }

    /** `JoinHandle::abort` */
    method Abort()
      modifies this
      ensures aborted
    {
      aborted := true;
    }
  }

  /** `ManagedState`: the gate, the current settings and the slot of the running server task. */
  class ManagedState {
    const listening: ListeningGate
    var settings: HttpSettings
    var serverTask: Option<ServerTask>
    /** Every task this state has spawned. */
    ghost var spawned: set<ServerTask>

    /**
     * The task in the slot is one this state spawned behind its own gate,
     * and every other task it spawned has been aborted.
     */
    ghost predicate Valid()
      reads this, spawned
    {
      && (serverTask.Some? ==> serverTask.value in spawned && serverTask.value.listening == listening)
      && (forall t :: t in spawned && Some(t) != serverTask ==> t.aborted)
    }

    /** The task in the slot, as a set. */
    ghost function Slot(): set<ServerTask>
      reads this
    {
      if serverTask.Some? then {serverTask.value} else {}
    }

    /** Setup: the loaded settings, and a first server task spawned from them. */
    constructor (listening: ListeningGate, initial: HttpSettings)
      ensures this.listening == listening && settings == initial
      ensures serverTask.Some? && fresh(serverTask.value) && !serverTask.value.aborted
      ensures serverTask.value.settings == initial
      ensures spawned == {serverTask.value}
      ensures Valid()
    {
      this.listening := listening;
      settings := initial;
      var task := new ServerTask(listening, initial);
      serverTask := Some(task);
      spawned := {task};
    }

    /** At most one spawned task has not been aborted, and it is the one in the slot. */
    lemma {:induction false} AtMostOneLive(t: ServerTask, u: ServerTask)
      requires Valid()
      requires t in spawned && u in spawned && !t.aborted && !u.aborted
      ensures t == u && serverTask == Some(t)
    {
    }

    /**
     * `restart_http_server`: the task in the slot, if any, is aborted before
     * a fresh task spawned from the current settings takes its place.
     */
    method RestartHttpServer() returns (r: Result<(), string>)
      requires Valid()
      modifies this, Slot()
      ensures r == Success(())
      ensures settings == old(settings)
      ensures serverTask.Some? && fresh(serverTask.value) && !serverTask.value.aborted
      ensures serverTask.value.settings == settings && serverTask.value.listening == listening
      ensures old(serverTask).Some? ==> old(serverTask).value.aborted
      ensures spawned == old(spawned) + {serverTask.value}
      ensures Valid()
    {
      var previous := serverTask;
      serverTask := None;
      if previous.Some? {
        previous.value.Abort();
      }
      var task := new ServerTask(listening, settings);
      serverTask := Some(task);
      spawned := spawned + {task};
      r := Success(());
    }

    /**
     * `save_http_bindings`: invalid settings are refused and nothing
     * changes; valid ones overwrite the current settings, then are persisted,
     * and only a successful persist restarts the server. A failed persist is
     * returned as is, the new settings stay in memory, and the running task
     * is left running.
     */
    method SaveHttpBindings(newSettings: HttpSettings, store: SettingsStore, outcome: StoreOutcome)
      returns (r: Result<(), string>)
      requires Valid()
      modifies this, store, Slot()
      ensures r == SaveResult(newSettings, outcome)
      ensures ValidateHttpSettings(newSettings).Failure? ==>
        settings == old(settings) && serverTask == old(serverTask) && spawned == old(spawned)
        && store.entry == old(store.entry)
      ensures ValidateHttpSettings(newSettings).Success? ==>
        settings == newSettings
        && store.entry == (if outcome.Saved? then Some(SettingsJson(newSettings)) else old(store.entry))
      ensures ValidateHttpSettings(newSettings).Success? && !outcome.Saved? ==>
        serverTask == old(serverTask) && spawned == old(spawned)
      ensures ValidateHttpSettings(newSettings).Success? && outcome.Saved? ==>
        && serverTask.Some? && fresh(serverTask.value) && !serverTask.value.aborted
        && serverTask.value.settings == newSettings
        && spawned == old(spawned) + {serverTask.value}
        && (old(serverTask).Some? ==> old(serverTask).value.aborted)
      ensures !(ValidateHttpSettings(newSettings).Success? && outcome.Saved?) ==>
        forall t :: t in old(spawned) ==> t.aborted == old(t.aborted)
      ensures forall t :: t in old(spawned) && Some(t) != old(serverTask) ==> t.aborted == old(t.aborted)
      ensures Valid()
    {
      var valid := ValidateHttpSettings(newSettings);
      if valid.Failure? {
        return valid;
      }
      settings := newSettings;
      var persisted := store.Persist(newSettings, outcome);
      if persisted.Failure? {
        return persisted;
      }
      r := RestartHttpServer();
    }
  }

  /** The result `save_http_bindings` returns for `s` when the store reports `outcome`. */
  function SaveResult(s: HttpSettings, outcome: StoreOutcome): Result<(), string> {
    if ValidateHttpSettings(s).Failure? then ValidateHttpSettings(s) else PersistResult(outcome)
  }

  /**
   * Saving succeeds exactly when the settings are valid and the store saved
   * them; invalid settings are refused with the validator's message whatever
   * the store would have done, and a store failure is reported with its own.
   */
  lemma {:induction false} SaveResultSpec(s: HttpSettings, outcome: StoreOutcome)
    ensures SaveResult(s, outcome).Success? <==> !Blank(s.bindAddress) && s.port != 0 && outcome.Saved?
    ensures Blank(s.bindAddress) ==> SaveResult(s, outcome) == Failure(BLANK_ADDRESS)
    ensures !Blank(s.bindAddress) && s.port == 0 ==> SaveResult(s, outcome) == Failure(PORT_OUT_OF_RANGE)
    ensures ValidateHttpSettings(s).Success? ==> SaveResult(s, outcome) == PersistResult(outcome)
  {
    ValidateHttpSettingsSpec(s);
    PersistFailuresDiffer(outcome, outcome);
  }
}
