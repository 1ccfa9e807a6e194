/**
 What a look reads of a workspace, in the words of the input: whether an agent drives it, whether its
 newest build is green, and when it last showed work. The rules' own tests are these.
 */
module OversightSigns {
  import opened Options
  import opened OversightModel

  // ---------------------------------------------------------------- driven, idle, green

  /** Driven, unless by a person through one of the leases this server holds. */
  ghost predicate DrivenByAgent(d: Device, ownLeases: seq<string>) {
    && d.activity.Some? && d.activity.value.driven
    && !exists lease ::
         && d.activity.value.driver.Some? && d.activity.value.driver.value.tool == "stim device lock"
         && d.activity.value.driver.value.since == Some(lease) && lease != "" && lease in ownLeases
  }

  ghost predicate AgentDrives(input: Input, env: Env) {
    exists i :: 0 <= i < |env.devices| && DrivenByAgent(env.devices[i], input.ownLeases)
  }

  /** The device is the first an agent drives. */
  ghost predicate FirstToDrive(input: Input, env: Env, d: Device) {
    exists i ::
      && 0 <= i < |env.devices| && env.devices[i] == d && DrivenByAgent(d, input.ownLeases)
      && forall j | 0 <= j < i :: !DrivenByAgent(env.devices[j], input.ownLeases)
  }

  ghost predicate NoSession(env: Env) {
    !env.live && env.phase != Warming && env.phase != OtherPhase
  }

  ghost predicate BuildRuns(env: Env) {
    exists c :: env.build == Some(c) && c.running
  }

  /** Of two builds the Android one started later. */
  ghost predicate AndroidLater(env: Env) {
    && env.lastIos.Some? && env.lastAndroid.Some?
    && exists a: int, i: int ::
         env.lastAndroid.value.startedAt == Some(a) && env.lastIos.value.startedAt == Some(i) && a > i
  }

  /** The later started of the last builds ended well. */
  ghost predicate NewestOk(env: Env) {
    if env.lastAndroid.Some? && (env.lastIos.None? || AndroidLater(env)) then env.lastAndroid.value.status == "ok"
    else env.lastIos.Some? && env.lastIos.value.status == "ok"
  }

  lemma DrivenIs(d: Device, ownLeases: seq<string>)
    ensures AgentDriven(d, ownLeases) <==> DrivenByAgent(d, ownLeases)
  {
  }

  lemma {:induction false} FirstIs(devices: seq<Device>, ownLeases: seq<string>)
    ensures var first := FirstDriven(devices, ownLeases);
            && (first.None? <==> forall i | 0 <= i < |devices| :: !DrivenByAgent(devices[i], ownLeases))
            && (first.Some? ==> exists i ::
                  && 0 <= i < |devices| && devices[i] == first.value && DrivenByAgent(devices[i], ownLeases)
                  && forall j | 0 <= j < i :: !DrivenByAgent(devices[j], ownLeases))
    decreases |devices|
  {
    if devices != [] {
      DrivenIs(devices[0], ownLeases);
      FirstIs(devices[1..], ownLeases);
      if !AgentDriven(devices[0], ownLeases) && FirstDriven(devices, ownLeases).Some? {
        var rest := devices[1..];
        var i :| 0 <= i < |rest| && rest[i] == FirstDriven(rest, ownLeases).value && DrivenByAgent(rest[i], ownLeases)
                 && forall j | 0 <= j < i :: !DrivenByAgent(rest[j], ownLeases);
        assert devices[i + 1] == rest[i];
        forall j | 0 <= j < i + 1 ensures !DrivenByAgent(devices[j], ownLeases) {
          if j > 0 { assert devices[j] == rest[j - 1]; }
        }
      }
    }
  }

  lemma DrivesIs(input: Input, env: Env)
    ensures Driven(env, input).Some? <==> AgentDrives(input, env)
    ensures Driven(env, input).Some? ==> FirstToDrive(input, env, Driven(env, input).value)
  {
    FirstIs(env.devices, input.ownLeases);
  }

  lemma ReadingsAre(env: Env)
    ensures Idle(env) <==> NoSession(env)
    ensures Building(env) <==> BuildRuns(env)
    ensures Green(env) <==> NewestOk(env)
  {
  }

  // ---------------------------------------------------------------- signs of work

  /** A device shows work then: what an agent or a session did, and of a driven page its log. */
  ghost predicate DeviceSign(d: Device, t: int) {
    && d.activity.Some?
    && var a := d.activity.value;
    || (a.driver.Some? && a.driver.value.sinceAt == Some(t))
    || (a.recent.None? && a.lastActivityAt == Some(t))
    || (a.recent.Some?
        && Some(t) in {a.recent.value.agentAction, a.recent.value.metroBundle, a.recent.value.workspaceUse})
    || (a.recent.Some? && d.platform == Chrome && a.driven && a.recent.value.pageLog == Some(t))
  }

  ghost predicate DevicesSign(devices: seq<Device>, t: int) {
    exists i :: 0 <= i < |devices| && DeviceSign(devices[i], t)
  }

  ghost predicate BuildSign(b: Option<Build>, t: int) {
    b.Some? && (b.value.startedAt == Some(t) || b.value.finishedAt == Some(Some(t)))
  }

  /** The workspace shows work then. */
  ghost predicate ShowsWork(env: Env, t: int) {
    || DevicesSign(env.devices, t)
    || BuildSign(env.lastIos, t) || BuildSign(env.lastAndroid, t)
    || (env.build.Some? && env.build.value.startedAt == Some(t))
  }

  /** The latest of some times, if there are any. */
  ghost predicate Latest(s: Stamp, times: iset<int>) {
    && (s.None? ==> times == iset{})
    && (s.Some? ==> s.value in times && forall t | t in times :: t <= s.value)
  }

  lemma LatestOfBoth(a: Stamp, b: Stamp, A: iset<int>, B: iset<int>)
    requires Latest(a, A) && Latest(b, B)
    ensures Latest(Later(a, b), A + B)
  {
  }

  lemma LatestOne(s: Stamp)
    ensures Latest(s, iset t: int | s == Some(t))
  {
  }

  lemma DeviceLatest(d: Device)
    ensures Latest(DeviceActivity(d), iset t: int | DeviceSign(d, t))
  {
  }

  lemma DevicesSignRest(devices: seq<Device>, t: int)
    requires devices != []
    ensures DevicesSign(devices, t) <==> DeviceSign(devices[0], t) || DevicesSign(devices[1..], t)
  {
    var rest := devices[1..];
    if DevicesSign(rest, t) {
      var i :| 0 <= i < |rest| && DeviceSign(rest[i], t);
      assert devices[i + 1] == rest[i];
    }
    if i :| 0 < i < |devices| && DeviceSign(devices[i], t) { assert rest[i - 1] == devices[i]; }
  }

  lemma {:induction false} DevicesLatest(devices: seq<Device>)
    ensures Latest(DevicesActivity(devices), iset t: int | DevicesSign(devices, t))
    decreases |devices|
  {
    if devices != [] {
      var A, B := iset t: int | DeviceSign(devices[0], t), iset t: int | DevicesSign(devices[1..], t);
      DeviceLatest(devices[0]);
      DevicesLatest(devices[1..]);
      LatestOfBoth(DeviceActivity(devices[0]), DevicesActivity(devices[1..]), A, B);
      forall t: int ensures t in A + B <==> DevicesSign(devices, t) {
        DevicesSignRest(devices, t);
      }
      assert A + B == iset t: int | DevicesSign(devices, t);
    }
  }

  lemma BuildLatest(b: Option<Build>)
    ensures Latest(BuildActivity(b), iset t: int | BuildSign(b, t))
  {
  }

  lemma ShownLatest(env: Env)
    ensures Latest(Shown(env), iset t: int | ShowsWork(env, t))
  {
    var D := iset t: int | DevicesSign(env.devices, t);
    var I, A := iset t: int | BuildSign(env.lastIos, t), iset t: int | BuildSign(env.lastAndroid, t);
    var now := if env.build.Some? then env.build.value.startedAt else None;
    var N := iset t: int | now == Some(t);
    DevicesLatest(env.devices);
    BuildLatest(env.lastIos);
    BuildLatest(env.lastAndroid);
    LatestOne(now);
    LatestOfBoth(BuildActivity(env.lastIos), BuildActivity(env.lastAndroid), I, A);
    LatestOfBoth(Later(BuildActivity(env.lastIos), BuildActivity(env.lastAndroid)), now, I + A, N);
    LatestOfBoth(DevicesActivity(env.devices),
                 Later(Later(BuildActivity(env.lastIos), BuildActivity(env.lastAndroid)), now),
                 D, I + A + N);
    assert D + (I + A + N) == iset t: int | ShowsWork(env, t);
  }

  /** All signs of work of a look: what the workspace shows, and what the looks saw. */
  ghost predicate Sign(env: Env, errorsAt: Stamp, drivenAt: Stamp, t: int) {
    ShowsWork(env, t) || errorsAt == Some(t) || drivenAt == Some(t)
  }

  lemma ActivityLatest(env: Env, errorsAt: Stamp, drivenAt: Stamp)
    ensures Latest(LastActivity(env, errorsAt, drivenAt), iset t: int | Sign(env, errorsAt, drivenAt, t))
  {
    var S, E, D := iset t: int | ShowsWork(env, t), iset t: int | errorsAt == Some(t),
                   iset t: int | drivenAt == Some(t);
    ShownLatest(env);
    LatestOne(errorsAt);
    LatestOne(drivenAt);
    LatestOfBoth(errorsAt, drivenAt, E, D);
    LatestOfBoth(Later(errorsAt, drivenAt), Shown(env), E + D, S);
    assert E + D + S == iset t: int | Sign(env, errorsAt, drivenAt, t);
  }

  /** The latest sign is so old exactly if every sign is. */
  lemma AllSo(s: Stamp, env: Env, errorsAt: Stamp, drivenAt: Stamp, bound: int)
    requires s == LastActivity(env, errorsAt, drivenAt) && s.Some?
    ensures s.value <= bound <==> forall t: int | Sign(env, errorsAt, drivenAt, t) :: t <= bound
  {
    var T := iset t: int | Sign(env, errorsAt, drivenAt, t);
    ActivityLatest(env, errorsAt, drivenAt);
    assert s.value in T;
    forall t: int | Sign(env, errorsAt, drivenAt, t) ensures t <= s.value {
      assert t in T;
    }
  }
}
