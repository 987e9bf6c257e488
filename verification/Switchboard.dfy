/** What Runner keeps under `r.mu` (internal/service/pipeline/runner.go): the active executions and the confirmation
    channels of all tasks in two flat maps. Seen from one task these are the slot and the channels of the System
    module, and no operation for one task reaches those of another. */
module Switchboard {
  import opened Types
  import opened System

  predicate HasPrefix(s: string, p: string) {
    |p| <= |s| && s[..|p|] == p
  }

  function Key(taskID: string, id: NodeID): string {
    taskID + ":" + id
  }

  /** Task IDs are hexadecimal, so a key belongs to one task only. */
  lemma KeysAreApart(t: string, u: string, id: NodeID)
    requires ':' !in t && ':' !in u
    ensures HasPrefix(Key(u, id), t + ":") <==> t == u
  {
    var key, p := Key(u, id), t + ":";
    if t == u {
      assert key[..|p|] == p;
    } else if |t| < |u| {
      assert u[|t|] in u && key[..|p|][|t|] == u[|t|] && p[|t|] == ':';
    } else if |u| < |t| {
      assert t[|u|] in t && p[|u|] == t[|u|] && key[|u|] == ':';
    } else {
      assert key[..|t|] == u && p[..|t|] == t && |p| <= |key| && key[..|p|][..|t|] == key[..|t|];
    }
  }

  /** The channels of one task in the flat map. */
  ghost function Channels(chans: map<string, nat>, taskID: string): map<NodeID, nat> {
    var ids := set key | key in chans && HasPrefix(key, taskID + ":") :: key[|taskID| + 1..];
    map id | id in ids && Key(taskID, id) in chans :: chans[Key(taskID, id)]
  }

  lemma ChannelsAreTheKeys(chans: map<string, nat>, taskID: string)
    ensures forall id :: id in Channels(chans, taskID) <==> Key(taskID, id) in chans
    ensures forall id <- Channels(chans, taskID) :: Channels(chans, taskID)[id] == chans[Key(taskID, id)]
  {
    forall id | Key(taskID, id) in chans ensures id in Channels(chans, taskID) {
      var key := Key(taskID, id);
      assert key[..|taskID| + 1] == taskID + ":" && key[|taskID| + 1..] == id && HasPrefix(key, taskID + ":");
    }
  }

  /** A key with the prefix of a task is the key of one of its nodes. */
  lemma KeyOfPrefix(key: string, taskID: string)
    requires HasPrefix(key, taskID + ":")
    ensures key == Key(taskID, key[|taskID| + 1..])
  {
  }

  ghost predicate Agree(before: map<string, nat>, after: map<string, nat>, key: string) {
    (key in before <==> key in after) && (key in before ==> before[key] == after[key])
  }

  /** What changes only the keys of one task changes no channel of another. */
  lemma OthersKeepChannels(before: map<string, nat>, after: map<string, nat>, taskID: string)
    requires forall key :: !HasPrefix(key, taskID + ":") ==> Agree(before, after, key)
    ensures forall other :: ':' !in taskID && ':' !in other && other != taskID ==>
              Channels(after, other) == Channels(before, other)
  {
    forall other | ':' !in taskID && ':' !in other && other != taskID
      ensures Channels(after, other) == Channels(before, other)
    {
      ChannelsAreTheKeys(before, other);
      ChannelsAreTheKeys(after, other);
      forall id ensures Agree(before, after, Key(other, id)) { KeysAreApart(taskID, other, id); }
      forall id ensures id in Channels(after, other) <==> id in Channels(before, other) {
        assert Agree(before, after, Key(other, id));
      }
    }
  }

  lemma KeyHasPrefix(taskID: string, id: NodeID)
    ensures HasPrefix(Key(taskID, id), taskID + ":")
  {
    assert Key(taskID, id)[..|taskID| + 1] == taskID + ":";
  }

  lemma KeyInjective(taskID: string, id: NodeID, other: NodeID)
    requires Key(taskID, id) == Key(taskID, other)
    ensures id == other
  {
    assert Key(taskID, id)[|taskID| + 1..] == id && Key(taskID, other)[|taskID| + 1..] == other;
  }

  lemma AfterInsert(chans: map<string, nat>, taskID: string, id: NodeID, ch: nat)
    ensures Channels(chans[Key(taskID, id) := ch], taskID) == Channels(chans, taskID)[id := ch]
    ensures forall other :: ':' !in taskID && ':' !in other && other != taskID ==>
              Channels(chans[Key(taskID, id) := ch], other) == Channels(chans, other)
  {
    var after := chans[Key(taskID, id) := ch];
    KeyHasPrefix(taskID, id);
    OthersKeepChannels(chans, after, taskID);
    ChannelsAreTheKeys(chans, taskID);
    ChannelsAreTheKeys(after, taskID);
    forall other | other != id ensures Key(taskID, other) != Key(taskID, id) {
      if Key(taskID, other) == Key(taskID, id) { KeyInjective(taskID, other, id); }
    }
  }

  lemma AfterRemoval(chans: map<string, nat>, taskID: string, id: NodeID)
    ensures Channels(chans - {Key(taskID, id)}, taskID) == Channels(chans, taskID) - {id}
    ensures forall other :: ':' !in taskID && ':' !in other && other != taskID ==>
              Channels(chans - {Key(taskID, id)}, other) == Channels(chans, other)
  {
    var after := chans - {Key(taskID, id)};
    KeyHasPrefix(taskID, id);
    OthersKeepChannels(chans, after, taskID);
    ChannelsAreTheKeys(chans, taskID);
    ChannelsAreTheKeys(after, taskID);
    forall other | other != id ensures Key(taskID, other) != Key(taskID, id) {
      if Key(taskID, other) == Key(taskID, id) { KeyInjective(taskID, other, id); }
    }
  }

  /** Dropping every key with the prefix of the task. */
  lemma AfterSweep(chans: map<string, nat>, after: map<string, nat>, sent: set<nat>, taskID: string)
    requires forall key :: key in after <==> key in chans && !HasPrefix(key, taskID + ":")
    requires forall key <- after :: after[key] == chans[key]
    requires sent == set key | key in chans && HasPrefix(key, taskID + ":") :: chans[key]
    ensures Channels(after, taskID) == map[] && sent == Channels(chans, taskID).Values
    ensures forall other :: ':' !in taskID && ':' !in other && other != taskID ==>
              Channels(after, other) == Channels(chans, other)
  {
    OthersKeepChannels(chans, after, taskID);
    ChannelsAreTheKeys(chans, taskID);
    ChannelsAreTheKeys(after, taskID);
    forall id ensures Key(taskID, id) !in after { KeyHasPrefix(taskID, id); }
    forall ch | ch in sent ensures ch in Channels(chans, taskID).Values {
      var key :| key in chans && HasPrefix(key, taskID + ":") && chans[key] == ch;
      KeyOfPrefix(key, taskID);
      assert key[|taskID| + 1..] in Channels(chans, taskID);
    }
    forall ch | ch in Channels(chans, taskID).Values ensures ch in sent {
      var id :| id in Channels(chans, taskID) && Channels(chans, taskID)[id] == ch;
      KeyHasPrefix(taskID, id);
      assert chans[Key(taskID, id)] == ch;
    }
  }

  class Board {
    var active: map<string, nat>
    var cancelled: set<nat>
    var confirmChans: map<string, nat>
    var signalled: set<nat>
    var nextId: nat

    constructor ()
      ensures active == map[] && confirmChans == map[] && signalled == {} && cancelled == {}
    {
      active, cancelled, confirmChans, signalled, nextId := map[], {}, map[], {}, 0;
    }

    /** The claim of the active slot by start: at most one execution per task. */
    method Claim(taskID: string) returns (execution: Option<nat>)
      modifies this`active, this`nextId
      ensures if taskID in old(active) then execution == None && active == old(active) && nextId == old(nextId)
              else
                && execution == Some(old(nextId)) && active == old(active)[taskID := old(nextId)]
                && nextId == old(nextId) + 1
    {
      if taskID in active {
        return None;
      }
      active := active[taskID := nextId];
      nextId := nextId + 1;
      return Some(nextId - 1);
    }

    method Abort(taskID: string)
      modifies this`cancelled
      ensures cancelled == old(cancelled) + if taskID in active then {active[taskID]} else {}
    {
      if taskID in active {
        cancelled := cancelled + {active[taskID]};
      }
    }

    method GetConfirmChan(taskID: string, id: NodeID) returns (ch: nat)
      modifies this`confirmChans, this`nextId
      ensures var before := old(Channels(confirmChans, taskID));
              if id in before then ch == before[id] && confirmChans == old(confirmChans)
              else ch == old(nextId) && Channels(confirmChans, taskID) == before[id := ch]
      ensures nextId == if id in old(Channels(confirmChans, taskID)) then old(nextId) else old(nextId) + 1
      ensures forall other :: ':' !in taskID && ':' !in other && other != taskID ==>
                Channels(confirmChans, other) == old(Channels(confirmChans, other))
    {
      ChannelsAreTheKeys(confirmChans, taskID);
      var key := Key(taskID, id);
      if key in confirmChans {
        return confirmChans[key];
      }
      ch := nextId;
      AfterInsert(confirmChans, taskID, id, ch);
      confirmChans := confirmChans[key := ch];
      nextId := nextId + 1;
    }

    /** signalConfirm, seen from its task, is the Signal step of the state machine. */
    method SignalConfirm(taskID: string, id: NodeID)
      modifies this`confirmChans, this`signalled
      ensures var before := old(Channels(confirmChans, taskID));
              if id in before
              then signalled == old(signalled) + {before[id]} && Channels(confirmChans, taskID) == before - {id}
              else signalled == old(signalled) && confirmChans == old(confirmChans)
      ensures forall other :: ':' !in taskID && ':' !in other && other != taskID ==>
                Channels(confirmChans, other) == old(Channels(confirmChans, other))
    {
      ChannelsAreTheKeys(confirmChans, taskID);
      var key := Key(taskID, id);
      if key in confirmChans {
        AfterRemoval(confirmChans, taskID, id);
        signalled := signalled + {confirmChans[key]};
        confirmChans := confirmChans - {key};
      }
    }

    /** The loop of Cancel over the channels, seen from its task, is the Sweep step of the state machine. */
    method Sweep(taskID: string)
      modifies this`confirmChans, this`signalled
      ensures Channels(confirmChans, taskID) == map[]
      ensures signalled == old(signalled) + old(Channels(confirmChans, taskID)).Values
      ensures forall other :: ':' !in taskID && ':' !in other && other != taskID ==>
                Channels(confirmChans, other) == old(Channels(confirmChans, other))
    {
      ghost var before, full := confirmChans, signalled;
      ghost var sent: set<nat> := {};
      var keys := confirmChans.Keys;
      while keys != {}
        invariant keys <= before.Keys
        invariant forall key :: key in confirmChans <==> key in before && (key in keys || !HasPrefix(key, taskID + ":"))
        invariant forall key <- confirmChans :: confirmChans[key] == before[key]
        invariant sent == set key | key in before && key !in keys && HasPrefix(key, taskID + ":") :: before[key]
        invariant signalled == full + sent
        decreases |keys|
      {
        var key :| key in keys;
        keys := keys - {key};
        if HasPrefix(key, taskID + ":") {
          signalled := signalled + {confirmChans[key]};
          sent := sent + {before[key]};
          confirmChans := confirmChans - {key};
        }
      }
      AfterSweep(before, confirmChans, sent, taskID);
    }
  }

  // ---------------------------------------------------------------- the board is what the state machine says

  /** The board, seen from a task, is the slot and the channels of that task's state. */
  ghost predicate Shows(b: Board, taskID: string, s: State)
    reads b
  {
    && (if taskID in b.active then s.slot == Some(b.active[taskID]) else s.slot == None)
    && s.channels == Channels(b.confirmChans, taskID) && s.signalled == b.signalled && s.nextId == b.nextId
  }

  method SignalRefines(b: Board, taskID: string, id: NodeID, ghost s: State)
    requires Shows(b, taskID, s)
    modifies b
    ensures Shows(b, taskID, Rewired(s, Signal(id)))
  {
    b.SignalConfirm(taskID, id);
  }

  method SweepRefines(b: Board, taskID: string, ghost s: State)
    requires Shows(b, taskID, s)
    modifies b
    ensures Shows(b, taskID, Rewired(s, ApiStep.Sweep))
  {
    b.Sweep(taskID);
  }

  /** getConfirmChan is the Open step of the executor that calls it. */
  method OpenRefines(b: Board, taskID: string, id: NodeID, ghost s: State, ghost w: nat, ghost k: nat)
    returns (ch: nat)
    requires Shows(b, taskID, s) && RunEnabled(s, w, k, Open) && ExecAt(s, w, k).node.id == id
    modifies b
    ensures Shows(b, taskID, FireRun(s, w, k, Open))
    ensures HasExec(FireRun(s, w, k, Open), w, k) && ExecAt(FireRun(s, w, k, Open), w, k).phase == Listening(ch)
  {
    ch := b.GetConfirmChan(taskID, id);
  }

  method ClaimRefines(b: Board, taskID: string, ghost s: State)
    requires Shows(b, taskID, s)
    modifies b
    ensures Shows(b, taskID, Rewired(s, Start))
  {
    var _ := b.Claim(taskID);
  }
}
