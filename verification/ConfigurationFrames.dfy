/** The configuration a connection was last told and the document of its user. */
module ConfigurationFrames {
  import opened Wrappers
  import opened ObjectIds
  import opened NotificationModel
  import opened ConfigurationRepository
  import opened ClientModel
  import opened SessionModel
  import opened SessionInvariants
  import opened CacheAgreement
  import opened PreferencePersistence
  import opened HandlerEffects

  // The last configuration among the frames
  function LastConfig(frames: seq<Frame>): Option<Frame> {
    if frames == [] then None
    else if frames[|frames| - 1].ListConfigurations? then Some(frames[|frames| - 1])
    else LastConfig(frames[..|frames| - 1])
  }

  lemma LastConfigOfTwo(frames: seq<Frame>, list: seq<Frame>, config: seq<Frame>)
    requires |list| <= 1 && |config| <= 1
    requires list != [] ==> !list[0].ListConfigurations?
    requires config != [] ==> config[0].ListConfigurations?
    ensures LastConfig(frames + list + config) == if config == [] then LastConfig(frames) else Some(config[0])
  {
    assert config == [] ==> frames + list + config == frames + list;
    assert list == [] ==> frames + list == frames;
    if list != [] {
      assert (frames + list)[..|frames|] == frames;
    }
  }

  // The connection was last told the id and the flag of its user's document, under the user's name.
  predicate IsCurrent(s: State, user: string, c: Conn) {
    FindOne(s.configs, user).Some? &&
    LastConfig(Received(s.store.frames, c)) ==
      Some(ListConfigurations(Hex(FindOne(s.configs, user).value.id), user,
                              FindOne(s.configs, user).value.enableNotifications))
  }

  ghost predicate AllCurrent(s: State) {
    forall u, c :: Listed(s.store, u, c) && c in s.loops ==> IsCurrent(s, u, c)
  }

  // A toggle changes the document and its reply does not go out, while a connection of the user stays to miss it.
  ghost predicate ToggleMisses(s: State, m: Move) {
    Possible(s, m.event) && m.event.SetNotificationStatus? && m.env.updateConfig &&
    var user, enable := s.owner[m.event.conn], m.event.enable;
    FindOne(s.configs, user).Some? && FindOne(s.configs, user).value.enableNotifications != enable &&
    !ToggleReplies(s, user, m.env) &&
    exists c :: Listed(s.store, user, c) && c in s.loops &&
      (ToggleLists(s, user, enable, m.env) ==> Takes(s.store, user, m.env.failing, c))
  }

  // A new connection stays on its list and its greeting breaks off before the configuration.
  predicate ConnectMisses(s: State, m: Move) {
    m.event.Connect? && Registers(s, m) && !(m.env.refindConfig && m.env.regetInfo) &&
    !(ConnectLists(s, m) && m.event.conn in m.env.failing)
  }

  ghost predicate Misses(s: State, m: Move) {
    ToggleMisses(s, m) || ConnectMisses(s, m)
  }

  // ---- One handler ----

  // Who gets the configuration is current afterwards; for the others it is as before.
  lemma ReplyAndCurrent(s: State, user: string, enable: bool, env: Env, u: string, c: Conn)
    requires StoreSound(s.store, s.owner) && forall id :: id in env.order ==> id in s.docs
    requires Listed(ListThenConfig(s, user, enable, env).store, u, c)
    ensures var after := ListThenConfig(s, user, enable, env);
      if u == user && ConfigGoes(s, user, env) then IsCurrent(after, u, c)
      else LastConfig(Received(after.store.frames, c)) == LastConfig(Received(s.store.frames, c))
  {
    var items := TwoFrames(s, user, enable, env, c);
    SendsWriteNothing(s, user, enable, env);
    var found := FindOne(s.configs, user);
    var list := If(ListGoes(s, user, enable, env) && Takes(s.store, user, env.failing, c), ListNotifications(items));
    var config := if ConfigGoes(s, user, env) && TakesSecond(s, user, enable, env, c)
      then [ListConfigurations(Hex(found.value.id), user, found.value.enableNotifications)] else [];
    LastConfigOfTwo(Received(s.store.frames, c), list, config);
    assert Listed(s.store, u, c);
    if u != user {
      assert s.owner[c] == u;
      assert !Listed(s.store, user, c);
    }
  }

  lemma ListedAfterReply(s: State, user: string, enable: bool, env: Env, c: Conn)
    requires StoreSound(s.store, s.owner) && forall id :: id in env.order ==> id in s.docs
    ensures forall u :: Listed(ListThenConfig(s, user, enable, env).store, u, c) ==> Listed(s.store, u, c)
    ensures !ConfigGoes(s, user, env) ==>
      (Listed(ListThenConfig(s, user, enable, env).store, user, c) <==>
        Listed(s.store, user, c) && (ListGoes(s, user, enable, env) ==> Takes(s.store, user, env.failing, c)))
  {
    var items := TwoFrames(s, user, enable, env, c);
  }

  lemma ToggleAndCurrent(s: State, m: Move)
    requires Sound(s) && Documented(s) && AllCurrent(s) && Enabled(s, m) && m.event.SetNotificationStatus?
    ensures AllCurrent(Step(s, m)) <==> !ToggleMisses(s, m)
  {
    var env, user, enable := m.env, s.owner[m.event.conn], m.event.enable;
    var toggled, after := Toggled(s, user, enable, env), Step(s, m);
    assert after == ListThenConfig(toggled, user, enable, env);
    SendsWriteNothing(toggled, user, enable, env);
    forall u, c | Listed(after.store, u, c) && c in after.loops
      ensures IsCurrent(after, u, c) <==>
        !(u == user && env.updateConfig && FindOne(s.configs, user).value.enableNotifications != enable &&
          !ToggleReplies(s, user, env))
    {
      ListedAfterReply(toggled, user, enable, env, c);
      assert Listed(s.store, u, c) && IsCurrent(s, u, c);
      ReplyAndCurrent(toggled, user, enable, env, u, c);
      UpdateSets(s.configs, user, enable, u);
    }
    if ToggleMisses(s, m) {
      var c :| Listed(s.store, user, c) && c in s.loops &&
        (ToggleLists(s, user, enable, env) ==> Takes(s.store, user, env.failing, c));
      ListedAfterReply(toggled, user, enable, env, c);
      UpdateSets(s.configs, user, enable, user);
      assert Listed(after.store, user, c);
    } else if !AllCurrent(after) {
      var u, c :| Listed(after.store, u, c) && c in after.loops && !IsCurrent(after, u, c);
      ListedAfterReply(toggled, user, enable, env, c);
      UpdateSets(s.configs, user, enable, user);
      assert false;
    }
  }

  // A connect that gives up changes nothing for the connections with a running loop.
  lemma RefusedAndCurrent(s: State, m: Move)
    requires Sound(s) && Documented(s) && AllCurrent(s) && Enabled(s, m) && m.event.Connect? && !Registers(s, m)
    ensures AllCurrent(Step(s, m))
  {
    RegisterWrites(s, m);
    assert m.event.conn !in s.loops;
    assert forall u, c :: c != m.event.conn ==> (Listed(Step(s, m).store, u, c) <==> Listed(s.store, u, c));
    assert forall u, c :: Listed(s.store, u, c) && c in s.loops ==> IsCurrent(s, u, c);
  }

  lemma GreetingAndCurrent(s: State, m: Move)
    requires Sound(s) && Documented(s) && AllCurrent(s) && Enabled(s, m) && m.event.Connect? && Registers(s, m)
    ensures AllCurrent(Step(s, m)) <==> !ConnectMisses(s, m)
  {
    var env, conn, user := m.env, m.event.conn, m.event.user;
    var registered, after := Register(s, conn, user, m.event.at, m.event.configId, env).0, Step(s, m);
    RegisterWrites(s, m);
    RegisterKeeps(s, conn, user, m.event.at, m.event.configId, env);
    assert after == ListThenConfig(registered, user, true, env).(loops := s.loops + {conn});
    forall u, c | Listed(after.store, u, c) && c in after.loops
      ensures IsCurrent(after, u, c) <==> !(c == conn && !(env.refindConfig && env.regetInfo))
    {
      GreetedAndCurrent(s, m, registered, u, c);
    }
    ListedAfterReply(registered, user, true, env, conn);
    assert Listed(registered.store, user, conn);
  }

  lemma ConnectAndCurrent(s: State, m: Move)
    requires Sound(s) && Documented(s) && AllCurrent(s) && Enabled(s, m) && m.event.Connect?
    ensures AllCurrent(Step(s, m)) <==> !ConnectMisses(s, m)
  {
    if Registers(s, m) {
      GreetingAndCurrent(s, m);
    } else {
      RefusedAndCurrent(s, m);
    }
  }

  lemma GreetedAndCurrent(s: State, m: Move, registered: State, u: string, c: Conn)
    requires Sound(s) && Documented(s) && AllCurrent(s) && Enabled(s, m) && m.event.Connect? && Registers(s, m)
    requires registered == Register(s, m.event.conn, m.event.user, m.event.at, m.event.configId, m.env).0
    requires Listed(Step(s, m).store, u, c) && c in Step(s, m).loops
    ensures IsCurrent(Step(s, m), u, c) <==> !(c == m.event.conn && !(m.env.refindConfig && m.env.regetInfo))
  {
    var env, conn, user := m.env, m.event.conn, m.event.user;
    RegisterWrites(s, m);
    RegisterKeeps(s, conn, user, m.event.at, m.event.configId, env);
    SendsWriteNothing(registered, user, true, env);
    ListedAfterReply(registered, user, true, env, c);
    ReplyAndCurrent(registered, user, true, env, u, c);
    if c == conn {
      assert Received(s.store.frames, conn) == [];
    } else {
      assert Listed(s.store, u, c) && IsCurrent(s, u, c);
    }
  }

  // The handlers without a configuration
  lemma OthersAndCurrent(s: State, m: Move)
    requires Sound(s) && AllCurrent(s) && Enabled(s, m) && !m.event.Connect? && !m.event.SetNotificationStatus?
    ensures AllCurrent(Step(s, m))
  {
    var after := Step(s, m);
    forall u, c | Listed(after.store, u, c) && c in after.loops
      ensures IsCurrent(after, u, c)
    {
      OtherFrames(s, m, u, c);
      assert IsCurrent(s, u, c);
    }
  }

  lemma OtherFrames(s: State, m: Move, u: string, c: Conn)
    requires Sound(s) && Enabled(s, m) && !m.event.Connect? && !m.event.SetNotificationStatus?
    ensures Step(s, m).configs == s.configs
    ensures Listed(Step(s, m).store, u, c) && c in Step(s, m).loops ==> Listed(s.store, u, c) && c in s.loops
    ensures LastConfig(Received(Step(s, m).store.frames, c)) == LastConfig(Received(s.store.frames, c))
  {
    if IsListing(m.event) {
      var items := SendAllExactly(s.(docs := DocsAtQuery(s, m.event, m.env)), UserOf(s, m.event), m.env, c);
      var list := If(m.env.find && Goes(s.store, UserOf(s, m.event), false, m.env.getInfo) &&
                     Takes(s.store, UserOf(s, m.event), m.env.failing, c), ListNotifications(items));
      LastConfigOfTwo(Received(s.store.frames, c), list, []);
      assert Received(s.store.frames, c) + list + [] == Received(s.store.frames, c) + list;
    } else if m.event.Publish? {
      PublishFrames(s, m, u, c);
    } else if !m.event.Ignored? {
      RemovalWrites(s, m);
    }
  }

  lemma PublishFrames(s: State, m: Move, u: string, c: Conn)
    requires Sound(s) && Enabled(s, m) && m.event.Publish?
    ensures Step(s, m).configs == s.configs && Step(s, m).loops == s.loops
    ensures Listed(Step(s, m).store, u, c) ==> Listed(s.store, u, c)
    ensures LastConfig(Received(Step(s, m).store.frames, c)) == LastConfig(Received(s.store.frames, c))
  {
    var user, frame := m.event.draft.userId, NewNotification(ToWire(m.event.id, Drafted(m.event.draft)));
    SendExactly(s.store, s.owner, user, frame, false, m.env.getInfo, m.env.failing, c);
    var push := If(Goes(s.store, user, false, m.env.getInfo) && Takes(s.store, user, m.env.failing, c), frame);
    LastConfigOfTwo(Received(s.store.frames, c), push, []);
    assert Received(s.store.frames, c) + push + [] == Received(s.store.frames, c) + push;
  }

  // A step keeps every connection told what the document says exactly when it is neither of the two.
  lemma StepAndCurrent(s: State, m: Move)
    requires Sound(s) && Documented(s) && AllCurrent(s) && Enabled(s, m)
    ensures AllCurrent(Step(s, m)) <==> !Misses(s, m)
  {
    if m.event.Connect? {
      ConnectAndCurrent(s, m);
    } else if m.event.SetNotificationStatus? {
      ToggleAndCurrent(s, m);
    } else {
      OthersAndCurrent(s, m);
    }
  }

  // ---- Over whole runs ----

  lemma {:induction false} CurrentUpTo(states: seq<State>, moves: seq<Move>, i: nat)
    requires IsRun(states, moves) && i < |states|
    requires forall j :: 0 <= j < i ==> !Misses(states[j], moves[j])
    ensures AllCurrent(states[i])
  {
    if i == 0 {
    } else {
      CurrentUpTo(states, moves, i - 1);
      RunIsSound(states, moves, i - 1);
      RunIsDocumented(states, moves, i - 1);
      assert Happens(states, moves, i - 1);
      StepAndCurrent(states[i - 1], moves[i - 1]);
    }
  }

  // In every run, whatever fails: every listed connection whose read loop runs was last told the configuration of its
  // user's document, after every handler, exactly as long as no step misses.
  lemma ConfigurationsAreCurrentExactly(states: seq<State>, moves: seq<Move>)
    requires IsRun(states, moves)
    ensures (forall i :: 0 <= i < |states| ==> AllCurrent(states[i])) <==>
            (forall j :: 0 <= j < |moves| ==> !Misses(states[j], moves[j]))
  {
    if forall j :: 0 <= j < |moves| ==> !Misses(states[j], moves[j]) {
      forall i | 0 <= i < |states|
        ensures AllCurrent(states[i])
      {
        CurrentUpTo(states, moves, i);
      }
    }
    if forall i :: 0 <= i < |states| ==> AllCurrent(states[i]) {
      forall j | 0 <= j < |moves|
        ensures !Misses(states[j], moves[j])
      {
        RunIsSound(states, moves, j);
        RunIsDocumented(states, moves, j);
        assert Happens(states, moves, j);
        assert AllCurrent(states[j]) && AllCurrent(states[j + 1]);
        StepAndCurrent(states[j], moves[j]);
      }
    }
  }

  // Without faults no step misses, and the user has that one document.
  lemma ConfigurationsAreCurrent(states: seq<State>, moves: seq<Move>, i: nat, user: string, c: Conn,
                                 config: Configuration)
    requires IsRun(states, moves) && i < |states| && forall j :: 0 <= j < i ==> FaultFree(moves[j].env)
    requires Listed(states[i].store, user, c) && c in states[i].loops
    requires config in states[i].configs && config.userId == user
    ensures LastConfig(Received(states[i].store.frames, c)) ==
            Some(ListConfigurations(Hex(config.id), user, config.enableNotifications))
  {
    CurrentUpTo(states, moves, i);
    assert IsCurrent(states[i], user, c);
    ScanOrderDoesNotMatter(states, moves, i, config);
  }
}
