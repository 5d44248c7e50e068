/** The Fabric tasks of the fabfile: `provision`, `provision_laptop` and `setup_user`. The two
    provisioning tasks share a safety gate (never the local machine, and only after the
    operator confirms) and then run a fixed plan of steps from module `Steps`; the first step
    that raises ends the task. */
module Tasks {
  import opened Commands
  import opened Fabric
  import Steps

  // ---------------------------------------------------------------- the safety gate

  predicate StartsWith(s: string, prefix: string) {
    |prefix| <= |s| && s[..|prefix|] == prefix
  }

  /** `check_local`: the host names the machine the task runs on. */
  predicate IsLocalHost(host: string) {
    StartsWith(host, "localhost") || StartsWith(host, "127.")
  }

  /** Every host name extending a refused one is refused too. */
  lemma LocalHostExtends(host: string, suffix: string)
    requires IsLocalHost(host)
    ensures IsLocalHost(host + suffix)
  {
    if StartsWith(host, "localhost") {
      assert (host + suffix)[..9] == host[..9];
    } else {
      assert (host + suffix)[..4] == host[..4];
    }
  }

  /** Python's `str.lower` on ASCII letters. */
  function LowerChar(ch: char): char {
    if 'A' <= ch <= 'Z' then (ch as int + 32) as char else ch
  }

  function Lower(s: string): (r: string)
    ensures |r| == |s|
    ensures forall i :: 0 <= i < |r| ==> !('A' <= r[i] <= 'Z')
    ensures forall i :: 0 <= i < |r| ==>
      if 'A' <= s[i] <= 'Z' then r[i] as int == s[i] as int + 32 else r[i] == s[i]
  {
    seq(|s|, i requires 0 <= i < |s| => LowerChar(s[i]))
  }

  /** The answer to "Are you sure? (y/N)" lets the task go on. */
  predicate Confirmed(answer: string) {
    Lower(answer) == "y" || Lower(answer) == "yes"
  }

  lemma LowerCharIs(ch: char, lower: char)
    requires 'a' <= lower <= 'z'
    ensures LowerChar(ch) == lower <==> ch == lower || ch as int == lower as int - 32
  {
  }

  /** Exactly "y" and "yes", in any mix of upper and lower case, confirm; anything else,
      the empty answer included, declines. */
  lemma ConfirmedIff(answer: string)
    ensures Confirmed(answer) <==>
      answer in {"y", "Y", "yes", "yeS", "yEs", "yES", "Yes", "YeS", "YEs", "YES"}
  {
    if |answer| == 1 {
      LowerCharIs(answer[0], 'y');
      assert Confirmed(answer) <==> Lower(answer)[0] == 'y';
      assert answer == [answer[0]];
    } else if |answer| == 3 {
      LowerCharIs(answer[0], 'y');
      LowerCharIs(answer[1], 'e');
      LowerCharIs(answer[2], 's');
      assert Confirmed(answer) <==> Lower(answer)[0] == 'y' && Lower(answer)[1] == 'e' && Lower(answer)[2] == 's';
      assert answer == [answer[0], answer[1], answer[2]];
    }
  }

  // ---------------------------------------------------------------- the plans

  /** The disk `provision` partitions. */
  const SystemDisk := "/dev/sda"

  /** The helpers the provisioning tasks call, in the order `provision` calls them. */
  datatype StepName =
    | Connectivity | Ntp | Partitioning | Mounting | MirrorlistUpload | BaseInstall | Fstab
    | Timezone | Locale | Hostname | Dhcp | RootSsh | HavegedService | Initramfs | RootPassword
    | Grub | Sudo | Keys | Skel | Cleanup

  /** The steps `provision` runs, in order, for a host name, the connection's password (if
      any) and the package list `install_base` starts from; it partitions /dev/sda. */
  function ProvisionPlan(hostname: string, password: Option<string>, packages: seq<string>): Plan<StepName> {
    Step(Connectivity, Steps.PingScript(),
    Step(Ntp, Steps.EnableNtpScript(),
    Step(Partitioning, Steps.PartitionDiskScript(SystemDisk),
    Step(Mounting, Steps.MountPartitionsScript(),
    Step(MirrorlistUpload, Steps.UploadMirrorlistScript(Steps.MirrorlistPath),
    Step(BaseInstall, Steps.InstallBaseScript(packages),
    Step(Fstab, Steps.CreateFstabScript(),
    Step(Timezone, Steps.SetTimezoneScript(),
    Step(Locale, Steps.SetLocaleScript(),
    Step(Hostname, Steps.SetHostnameScript(hostname),
    Step(Dhcp, Steps.EnableDhcpScript(),
    Step(RootSsh, Steps.EnableRootSshScript(),
    Step(HavegedService, Steps.EnableHavegedScript(),
    Step(Initramfs, Steps.MakeInitramfsScript(),
    Step(RootPassword, Steps.SetRootPasswordScript(password),
    Step(Grub, Steps.InstallGrubScript(),
    Step(Sudo, Steps.SetupSudoScript(),
    Step(Keys, Steps.InstallKeysScript(),
    Step(Skel, Steps.CreateSkelScript(),
    Step(Cleanup, Steps.CleanupScript(),
    End))))))))))))))))))))
  }

  /** The steps `provision_laptop` runs, in order: the disk is already partitioned and
      mounted, and neither haveged nor GRUB is set up. */
  function LaptopPlan(hostname: string, password: Option<string>, packages: seq<string>): Plan<StepName> {
    Step(Connectivity, Steps.PingScript(),
    Step(Ntp, Steps.EnableNtpScript(),
    Step(MirrorlistUpload, Steps.UploadMirrorlistScript(Steps.MirrorlistPath),
    Step(BaseInstall, Steps.InstallBaseScript(packages),
    Step(Fstab, Steps.CreateFstabScript(),
    Step(Timezone, Steps.SetTimezoneScript(),
    Step(Locale, Steps.SetLocaleScript(),
    Step(Hostname, Steps.SetHostnameScript(hostname),
    Step(Dhcp, Steps.EnableDhcpScript(),
    Step(RootSsh, Steps.EnableRootSshScript(),
    Step(Initramfs, Steps.MakeInitramfsScript(),
    Step(RootPassword, Steps.SetRootPasswordScript(password),
    Step(Sudo, Steps.SetupSudoScript(),
    Step(Keys, Steps.InstallKeysScript(),
    Step(Skel, Steps.CreateSkelScript(),
    Step(Cleanup, Steps.CleanupScript(),
    End))))))))))))))))
  }

  /** The steps that touch the disk layout or the boot loader. */
  predicate DiskOrBoot(name: StepName) {
    name.Partitioning? || name.Mounting? || name.HavegedService? || name.Grub?
  }

  /** `plan` without its `DiskOrBoot` steps. */
  function WithoutDiskAndBoot(plan: Plan<StepName>): Plan<StepName>
    decreases plan
  {
    match plan
    case End => End
    case Step(name, s, rest) =>
      if DiskOrBoot(name) then WithoutDiskAndBoot(rest) else Step(name, s, WithoutDiskAndBoot(rest))
  }

  /** One step of `WithoutDiskAndBoot`, stated for every plan. */
  lemma WithoutDiskAndBootStep(plan: Plan<StepName>)
    ensures plan.Step? ==>
      WithoutDiskAndBoot(plan) ==
        if DiskOrBoot(plan.name) then WithoutDiskAndBoot(plan.rest)
        else Step(plan.name, plan.script, WithoutDiskAndBoot(plan.rest))
  {
  }

  /** The plan after the first step (`End` stays `End`). */
  function Rest(plan: Plan<StepName>): Plan<StepName> {
    match plan
    case End => End
    case Step(_, _, rest) => rest
  }

  /** `plan` without its first `n` steps. */
  function Drop(plan: Plan<StepName>, n: nat): Plan<StepName>
    decreases n
  {
    if n == 0 then plan else Drop(Rest(plan), n - 1)
  }

  /** `provision_laptop` is `provision` with the partitioning, mounting, haveged and GRUB
      steps left out, and every other step kept, in the same order. */
  lemma LaptopIsProvisionWithoutDiskAndBoot(hostname: string, password: Option<string>, packages: seq<string>)
    ensures LaptopPlan(hostname, password, packages) ==
      WithoutDiskAndBoot(ProvisionPlan(hostname, password, packages))
  {
    var q := ProvisionPlan(hostname, password, packages);
    WithoutDiskAndBootStep(q);
    q := Rest(q);
    WithoutDiskAndBootStep(q);
    q := Rest(q);
    WithoutDiskAndBootStep(q);
    q := Rest(q);
    WithoutDiskAndBootStep(q);
    q := Rest(q);
    WithoutDiskAndBootStep(q);
    q := Rest(q);
    WithoutDiskAndBootStep(q);
    q := Rest(q);
    WithoutDiskAndBootStep(q);
    q := Rest(q);
    WithoutDiskAndBootStep(q);
    q := Rest(q);
    WithoutDiskAndBootStep(q);
    q := Rest(q);
    WithoutDiskAndBootStep(q);
    q := Rest(q);
    WithoutDiskAndBootStep(q);
    q := Rest(q);
    WithoutDiskAndBootStep(q);
    q := Rest(q);
    WithoutDiskAndBootStep(q);
    q := Rest(q);
    WithoutDiskAndBootStep(q);
    q := Rest(q);
    WithoutDiskAndBootStep(q);
    q := Rest(q);
    WithoutDiskAndBootStep(q);
    q := Rest(q);
    WithoutDiskAndBootStep(q);
    q := Rest(q);
    WithoutDiskAndBootStep(q);
    q := Rest(q);
    WithoutDiskAndBootStep(q);
    q := Rest(q);
    WithoutDiskAndBootStep(q);
  }

  /** The names of the steps of `plan`, in order. */
  function Names(plan: Plan<StepName>): seq<StepName>
    decreases plan
  {
    match plan
    case End => []
    case Step(name, _, rest) => [name] + Names(rest)
  }

  lemma NamesStep(plan: Plan<StepName>)
    ensures plan.Step? ==> Names(plan) == [plan.name] + Names(plan.rest)
  {
  }

  /** `name` is the name of exactly one step, the one at index `i`. */
  predicate OnlyAt(names: seq<StepName>, name: StepName, i: int) {
    0 <= i < |names| && names[i] == name && forall j :: 0 <= j < |names| && j != i ==> names[j] != name
  }

  /** The helpers `provision` calls, in order. */
  const ProvisionSteps: seq<StepName> :=
    [Connectivity, Ntp, Partitioning, Mounting, MirrorlistUpload, BaseInstall, Fstab, Timezone, Locale,
     Hostname, Dhcp, RootSsh, HavegedService, Initramfs, RootPassword, Grub, Sudo, Keys, Skel, Cleanup]

  /** No helper is called twice by `provision`. */
  lemma ProvisionStepsOnce(i: int)
    requires 0 <= i < |ProvisionSteps|
    ensures OnlyAt(ProvisionSteps, ProvisionSteps[i], i)
  {
  }

  /** The steps of `provision`, by name. */
  lemma ProvisionNames(hostname: string, password: Option<string>, packages: seq<string>)
    ensures Names(ProvisionPlan(hostname, password, packages)) == ProvisionSteps
  {
    var q := ProvisionPlan(hostname, password, packages);
    NamesStep(q);
    q := Rest(q);
    NamesStep(q);
    q := Rest(q);
    NamesStep(q);
    q := Rest(q);
    NamesStep(q);
    q := Rest(q);
    NamesStep(q);
    q := Rest(q);
    NamesStep(q);
    q := Rest(q);
    NamesStep(q);
    q := Rest(q);
    NamesStep(q);
    q := Rest(q);
    NamesStep(q);
    q := Rest(q);
    NamesStep(q);
    q := Rest(q);
    NamesStep(q);
    q := Rest(q);
    NamesStep(q);
    q := Rest(q);
    NamesStep(q);
    q := Rest(q);
    NamesStep(q);
    q := Rest(q);
    NamesStep(q);
    q := Rest(q);
    NamesStep(q);
    q := Rest(q);
    NamesStep(q);
    q := Rest(q);
    NamesStep(q);
    q := Rest(q);
    NamesStep(q);
    q := Rest(q);
    NamesStep(q);
  }

  /** `provision` partitions the disk before it mounts the partitions, mounts them before it
      installs the base system, and sets the root password before it installs GRUB; each of
      these steps appears once in the plan. */
  lemma ProvisionOrder(hostname: string, password: Option<string>, packages: seq<string>)
    ensures var names := Names(ProvisionPlan(hostname, password, packages));
      && |names| == 20
      && OnlyAt(names, Partitioning, 2) && OnlyAt(names, Mounting, 3) && OnlyAt(names, BaseInstall, 5)
      && OnlyAt(names, RootPassword, 14) && OnlyAt(names, Grub, 15)
  {
    ProvisionNames(hostname, password, packages);
    ProvisionStepsOnce(2);
    ProvisionStepsOnce(3);
    ProvisionStepsOnce(5);
    ProvisionStepsOnce(14);
    ProvisionStepsOnce(15);
  }

  // ---------------------------------------------------------------- what provision_laptop never does

  /** A command that probes or lays out the disk, builds the volume group, mounts the new
      partitions, sets up the boot loader, or enables haveged. */
  predicate DiskOrBootCommand(cmd: Command) {
    || cmd.TestBlock? || cmd.EspLayout? || cmd.FormatEsp? || cmd.BiosLayout?
    || cmd.LvmFlag? || cmd.PvCreate? || cmd.VgCreate? || cmd.LvCreate? || cmd.FormatRoot?
    || cmd.MountRoot? || cmd.MakeEspDir? || cmd.MountEsp?
    || (cmd.InChroot? && (cmd.inner.GrubInstallEfi? || cmd.inner.GrubInstallBios? || cmd.inner.GrubConfig?
                          || cmd.inner.EnableHavegedService?))
  }

  predicate DiskOrBootCall(call: Call) {
    call.Run? && DiskOrBootCommand(call.cmd)
  }

  /** No branch of `s` contains a disk or boot command. */
  predicate Avoids(s: Script)
    decreases s
  {
    match s
    case Done => true
    case Raise => true
    case Then(call, next) => !DiskOrBootCall(call) && Avoids(next)
    case Check(probe, yes, no) => !DiskOrBootCommand(probe) && Avoids(yes) && Avoids(no)
    case Try(cmd, failed, ok) => !DiskOrBootCommand(cmd) && Avoids(failed) && Avoids(ok)
  }

  /** No step of `plan` contains a disk or boot command. */
  predicate PlanAvoids(plan: Plan<StepName>)
    decreases plan
  {
    match plan
    case End => true
    case Step(_, s, rest) => Avoids(s) && PlanAvoids(rest)
  }

  /** Running a script that avoids disk and boot commands adds none to the trace, whatever fails. */
  lemma {:induction false} ExecAvoids(failing: iset<Command>, trace: seq<Call>, s: Script)
    requires Avoids(s)
    ensures var r := Exec(failing, trace, s).trace;
      && |trace| <= |r| && r[..|trace|] == trace
      && forall i :: |trace| <= i < |r| ==> !DiskOrBootCall(r[i])
    decreases s
  {
    match s
    case Done =>
    case Raise =>
    case Then(call, next) =>
      if !Raises(failing, call) { ExecAvoids(failing, trace + [call], next); }
    case Check(probe, yes, no) =>
      ExecAvoids(failing, trace + [Run(probe, true)], yes);
      ExecAvoids(failing, trace + [Run(probe, true)], no);
    case Try(cmd, failed, ok) =>
      ExecAvoids(failing, trace + [Run(cmd, false)], failed);
      ExecAvoids(failing, trace + [Run(cmd, false)], ok);
  }

  /** The same for a whole plan. */
  lemma {:induction false} ExecPlanAvoids(failing: iset<Command>, trace: seq<Call>, plan: Plan<StepName>)
    requires PlanAvoids(plan)
    ensures var r := ExecPlan(failing, trace, plan).trace;
      && |trace| <= |r| && r[..|trace|] == trace
      && forall i :: |trace| <= i < |r| ==> !DiskOrBootCall(r[i])
    decreases plan
  {
    match plan
    case End =>
    case Step(_, s, rest) =>
      var o := Exec(failing, trace, s);
      ExecAvoids(failing, trace, s);
      if o.completed {
        ExecPlanAvoids(failing, o.trace, rest);
        var r := ExecPlan(failing, o.trace, rest).trace;
        assert r[..|trace|] == r[..|o.trace|][..|trace|];
        forall i | |trace| <= i < |r|
          ensures !DiskOrBootCall(r[i])
        {
          if i < |o.trace| {
            assert r[i] == r[..|o.trace|][i];
          }
        }
      }
  }

  // The scripts of the steps `provision_laptop` keeps avoid disk and boot commands.

  lemma PingAvoids()
    ensures Avoids(Steps.PingScript())
  {
  }

  lemma NtpAvoids()
    ensures Avoids(Steps.EnableNtpScript())
  {
  }

  lemma MirrorlistAvoids()
    ensures Avoids(Steps.UploadMirrorlistScript(Steps.MirrorlistPath))
  {
  }

  lemma FstabAvoids()
    ensures Avoids(Steps.CreateFstabScript())
  {
  }

  lemma TimezoneAvoids()
    ensures Avoids(Steps.SetTimezoneScript())
  {
  }

  lemma LocaleAvoids()
    ensures Avoids(Steps.SetLocaleScript())
  {
  }

  lemma DhcpAvoids()
    ensures Avoids(Steps.EnableDhcpScript())
  {
  }

  lemma RootSshAvoids()
    ensures Avoids(Steps.EnableRootSshScript())
  {
  }

  lemma InitramfsAvoids()
    ensures Avoids(Steps.MakeInitramfsScript())
  {
  }

  lemma SudoAvoids()
    ensures Avoids(Steps.SetupSudoScript())
  {
  }

  lemma KeysAvoids()
    ensures Avoids(Steps.InstallKeysScript())
  {
  }

  lemma SkelAvoids()
    ensures Avoids(Steps.CreateSkelScript())
  {
  }

  lemma CleanupAvoids()
    ensures Avoids(Steps.CleanupScript())
  {
  }

  lemma HostnameAvoids(hostname: string)
    ensures Avoids(Steps.SetHostnameScript(hostname))
  {
    var l := Steps.HostnameCalls(hostname);
    assert Avoids(Then(l[3], Done));
    assert Avoids(Then(l[2], Then(l[3], Done)));
    assert Avoids(Then(l[1], Then(l[2], Then(l[3], Done))));
  }

  lemma InstallBaseAvoids(packages: seq<string>)
    ensures Avoids(Steps.InstallBaseScript(packages))
  {
    forall p: seq<string>
      ensures Avoids(Steps.PacstrapScript(p))
    {
      assert Avoids(Then(Steps.Cmd(Pacstrap(false, p)), Done));
      assert Avoids(Then(Steps.Cmd(Pacstrap(true, p)), Done));
    }
  }

  lemma PlanAvoidsStep(plan: Plan<StepName>)
    ensures plan.Step? ==> (PlanAvoids(plan) <==> Avoids(plan.script) && PlanAvoids(plan.rest))
  {
  }

  /** The last eight steps of `provision_laptop` avoid disk and boot commands. */
  lemma LaptopTailAvoids(hostname: string, password: Option<string>, packages: seq<string>)
    ensures PlanAvoids(Drop(LaptopPlan(hostname, password, packages), 8))
  {
    DhcpAvoids(); RootSshAvoids(); InitramfsAvoids(); SudoAvoids(); KeysAvoids(); SkelAvoids(); CleanupAvoids();
    assert Avoids(Steps.SetRootPasswordScript(password));
    var q := Drop(LaptopPlan(hostname, password, packages), 8);
    PlanAvoidsStep(q);
    q := Rest(q);
    PlanAvoidsStep(q);
    q := Rest(q);
    PlanAvoidsStep(q);
    q := Rest(q);
    PlanAvoidsStep(q);
    q := Rest(q);
    PlanAvoidsStep(q);
    q := Rest(q);
    PlanAvoidsStep(q);
    q := Rest(q);
    PlanAvoidsStep(q);
    q := Rest(q);
    PlanAvoidsStep(q);
    q := Rest(q);
  }

  /** Every step of `provision_laptop` avoids disk and boot commands. */
  lemma LaptopAvoids(hostname: string, password: Option<string>, packages: seq<string>)
    ensures PlanAvoids(LaptopPlan(hostname, password, packages))
  {
    PingAvoids(); NtpAvoids(); MirrorlistAvoids(); FstabAvoids(); TimezoneAvoids(); LocaleAvoids();
    HostnameAvoids(hostname);
    InstallBaseAvoids(packages);
    LaptopTailAvoids(hostname, password, packages);
    var q := LaptopPlan(hostname, password, packages);
    PlanAvoidsStep(q);
    q := Rest(q);
    PlanAvoidsStep(q);
    q := Rest(q);
    PlanAvoidsStep(q);
    q := Rest(q);
    PlanAvoidsStep(q);
    q := Rest(q);
    PlanAvoidsStep(q);
    q := Rest(q);
    PlanAvoidsStep(q);
    q := Rest(q);
    PlanAvoidsStep(q);
    q := Rest(q);
    PlanAvoidsStep(q);
    q := Rest(q);
    assert q == Drop(LaptopPlan(hostname, password, packages), 8);
  }

  /** `provision_laptop` never partitions, formats or mounts the disk, and never installs GRUB
      or enables haveged, on any host and whichever commands fail: every call it adds to the
      trace is of another kind. */
  lemma LaptopLeavesDiskAndBoot(failing: iset<Command>, trace: seq<Call>, hostname: string,
                                password: Option<string>, packages: seq<string>)
    ensures var r := ExecPlan(failing, trace, LaptopPlan(hostname, password, packages)).trace;
      && |trace| <= |r| && r[..|trace|] == trace
      && forall i :: |trace| <= i < |r| ==> !DiskOrBootCall(r[i])
  {
    LaptopAvoids(hostname, password, packages);
    ExecPlanAvoids(failing, trace, LaptopPlan(hostname, password, packages));
  }

  // ---------------------------------------------------------------- the tasks

  /** How a task ends: refused by `check_local`, declined at the prompt, stopped by an
      exception, or run to its end. */
  datatype Status = Refused | Declined | Raised | Finished

  /** `provision(c, hostname)`, with `answer` the operator's reply to the prompt and `defaults`
      the list object `install_base` uses as its default argument. */
  method Provision(c: Connection, hostname: string, answer: string, defaults: Steps.PackageList) returns (status: Status)
    modifies c, defaults
    ensures IsLocalHost(c.host) ==> status == Refused
    ensures !IsLocalHost(c.host) && !Confirmed(answer) ==> status == Declined
    ensures status == Refused || status == Declined ==> c.trace == old(c.trace) && defaults.items == old(defaults.items)
    ensures !IsLocalHost(c.host) && Confirmed(answer) ==>
      && (status == Raised || status == Finished)
      && Outcome(c.trace, status == Finished) ==
           ExecPlan(c.failing, old(c.trace), ProvisionPlan(hostname, c.password, old(defaults.items)))
    ensures defaults.items == old(defaults.items) || defaults.items == Steps.WithFirmware(c.failing, old(defaults.items))
    ensures status == Finished ==> defaults.items == Steps.WithFirmware(c.failing, old(defaults.items))
  {
    if IsLocalHost(c.host) {
      status := Refused;
      return;
    }
    if !Confirmed(answer) {
      status := Declined;
      return;
    }
    // `plan` holds the steps still to run; each step call ends where the rest of the plan starts.
    ghost var plan := ProvisionPlan(hostname, c.password, defaults.items);
    ghost var t := c.trace;
    status := Raised;
    var ok := Steps.IsInternetConnected(c);
    ExecPlanStep(c.failing, t, plan, Outcome(c.trace, ok));
    if !ok { return; }
    plan := plan.rest;
    t := c.trace;
    ok := Steps.EnableNtp(c);
    ExecPlanStep(c.failing, t, plan, Outcome(c.trace, ok));
    if !ok { return; }
    plan := plan.rest;
    t := c.trace;
    ok := Steps.PartitionDisk(c, SystemDisk);
    ExecPlanStep(c.failing, t, plan, Outcome(c.trace, ok));
    if !ok { return; }
    plan := plan.rest;
    t := c.trace;
    ok := Steps.MountPartitions(c);
    ExecPlanStep(c.failing, t, plan, Outcome(c.trace, ok));
    if !ok { return; }
    plan := plan.rest;
    t := c.trace;
    ok := Steps.UploadMirrorlist(c, Steps.MirrorlistPath);
    ExecPlanStep(c.failing, t, plan, Outcome(c.trace, ok));
    if !ok { return; }
    plan := plan.rest;
    t := c.trace;
    ok := Steps.InstallBase(c, defaults);
    ExecPlanStep(c.failing, t, plan, Outcome(c.trace, ok));
    if !ok { return; }
    plan := plan.rest;
    t := c.trace;
    ok := Steps.CreateFstab(c);
    ExecPlanStep(c.failing, t, plan, Outcome(c.trace, ok));
    if !ok { return; }
    plan := plan.rest;
    t := c.trace;
    ok := Steps.SetTimezone(c);
    ExecPlanStep(c.failing, t, plan, Outcome(c.trace, ok));
    if !ok { return; }
    plan := plan.rest;
    t := c.trace;
    ok := Steps.SetLocale(c);
    ExecPlanStep(c.failing, t, plan, Outcome(c.trace, ok));
    if !ok { return; }
    plan := plan.rest;
    t := c.trace;
    ok := Steps.SetHostname(c, hostname);
    ExecPlanStep(c.failing, t, plan, Outcome(c.trace, ok));
    if !ok { return; }
    plan := plan.rest;
    t := c.trace;
    ok := Steps.EnableDhcp(c);
    ExecPlanStep(c.failing, t, plan, Outcome(c.trace, ok));
    if !ok { return; }
    plan := plan.rest;
    t := c.trace;
    ok := Steps.EnableRootSsh(c);
    ExecPlanStep(c.failing, t, plan, Outcome(c.trace, ok));
    if !ok { return; }
    plan := plan.rest;
    t := c.trace;
    ok := Steps.EnableHaveged(c);
    ExecPlanStep(c.failing, t, plan, Outcome(c.trace, ok));
    if !ok { return; }
    plan := plan.rest;
    t := c.trace;
    ok := Steps.MakeInitramfs(c);
    ExecPlanStep(c.failing, t, plan, Outcome(c.trace, ok));
    if !ok { return; }
    plan := plan.rest;
    t := c.trace;
    ok := Steps.SetRootPassword(c);
    ExecPlanStep(c.failing, t, plan, Outcome(c.trace, ok));
    if !ok { return; }
    plan := plan.rest;
    t := c.trace;
    ok := Steps.InstallGrub(c);
    ExecPlanStep(c.failing, t, plan, Outcome(c.trace, ok));
    if !ok { return; }
    plan := plan.rest;
    t := c.trace;
    ok := Steps.SetupSudo(c);
    ExecPlanStep(c.failing, t, plan, Outcome(c.trace, ok));
    if !ok { return; }
    plan := plan.rest;
    t := c.trace;
    ok := Steps.InstallKeys(c);
    ExecPlanStep(c.failing, t, plan, Outcome(c.trace, ok));
    if !ok { return; }
    plan := plan.rest;
    t := c.trace;
    ok := Steps.CreateSkel(c);
    ExecPlanStep(c.failing, t, plan, Outcome(c.trace, ok));
    if !ok { return; }
    plan := plan.rest;
    t := c.trace;
    ok := Steps.PostInstallCleanup(c);
    ExecPlanStep(c.failing, t, plan, Outcome(c.trace, ok));
    if ok { status := Finished; }
  }

  /** `provision_laptop(c, hostname)`, with the same parameters as `Provision`. */
  method ProvisionLaptop(c: Connection, hostname: string, answer: string, defaults: Steps.PackageList) returns (status: Status)
    modifies c, defaults
    ensures IsLocalHost(c.host) ==> status == Refused
    ensures !IsLocalHost(c.host) && !Confirmed(answer) ==> status == Declined
    ensures status == Refused || status == Declined ==> c.trace == old(c.trace) && defaults.items == old(defaults.items)
    ensures !IsLocalHost(c.host) && Confirmed(answer) ==>
      && (status == Raised || status == Finished)
      && Outcome(c.trace, status == Finished) ==
           ExecPlan(c.failing, old(c.trace), LaptopPlan(hostname, c.password, old(defaults.items)))
    ensures defaults.items == old(defaults.items) || defaults.items == Steps.WithFirmware(c.failing, old(defaults.items))
    ensures status == Finished ==> defaults.items == Steps.WithFirmware(c.failing, old(defaults.items))
  {
    if IsLocalHost(c.host) {
      status := Refused;
      return;
    }
    if !Confirmed(answer) {
      status := Declined;
      return;
    }
    // `plan` holds the steps still to run; each step call ends where the rest of the plan starts.
    ghost var plan := LaptopPlan(hostname, c.password, defaults.items);
    ghost var t := c.trace;
    status := Raised;
    var ok := Steps.IsInternetConnected(c);
    ExecPlanStep(c.failing, t, plan, Outcome(c.trace, ok));
    if !ok { return; }
    plan := plan.rest;
    t := c.trace;
    ok := Steps.EnableNtp(c);
    ExecPlanStep(c.failing, t, plan, Outcome(c.trace, ok));
    if !ok { return; }
    plan := plan.rest;
    t := c.trace;
    ok := Steps.UploadMirrorlist(c, Steps.MirrorlistPath);
    ExecPlanStep(c.failing, t, plan, Outcome(c.trace, ok));
    if !ok { return; }
    plan := plan.rest;
    t := c.trace;
    ok := Steps.InstallBase(c, defaults);
    ExecPlanStep(c.failing, t, plan, Outcome(c.trace, ok));
    if !ok { return; }
    plan := plan.rest;
    t := c.trace;
    ok := Steps.CreateFstab(c);
    ExecPlanStep(c.failing, t, plan, Outcome(c.trace, ok));
    if !ok { return; }
    plan := plan.rest;
    t := c.trace;
    ok := Steps.SetTimezone(c);
    ExecPlanStep(c.failing, t, plan, Outcome(c.trace, ok));
    if !ok { return; }
    plan := plan.rest;
    t := c.trace;
    ok := Steps.SetLocale(c);
    ExecPlanStep(c.failing, t, plan, Outcome(c.trace, ok));
    if !ok { return; }
    plan := plan.rest;
    t := c.trace;
    ok := Steps.SetHostname(c, hostname);
    ExecPlanStep(c.failing, t, plan, Outcome(c.trace, ok));
    if !ok { return; }
    plan := plan.rest;
    t := c.trace;
    ok := Steps.EnableDhcp(c);
    ExecPlanStep(c.failing, t, plan, Outcome(c.trace, ok));
    if !ok { return; }
    plan := plan.rest;
    t := c.trace;
    ok := Steps.EnableRootSsh(c);
    ExecPlanStep(c.failing, t, plan, Outcome(c.trace, ok));
    if !ok { return; }
    plan := plan.rest;
    t := c.trace;
    ok := Steps.MakeInitramfs(c);
    ExecPlanStep(c.failing, t, plan, Outcome(c.trace, ok));
    if !ok { return; }
    plan := plan.rest;
    t := c.trace;
    ok := Steps.SetRootPassword(c);
    ExecPlanStep(c.failing, t, plan, Outcome(c.trace, ok));
    if !ok { return; }
    plan := plan.rest;
    t := c.trace;
    ok := Steps.SetupSudo(c);
    ExecPlanStep(c.failing, t, plan, Outcome(c.trace, ok));
    if !ok { return; }
    plan := plan.rest;
    t := c.trace;
    ok := Steps.InstallKeys(c);
    ExecPlanStep(c.failing, t, plan, Outcome(c.trace, ok));
    if !ok { return; }
    plan := plan.rest;
    t := c.trace;
    ok := Steps.CreateSkel(c);
    ExecPlanStep(c.failing, t, plan, Outcome(c.trace, ok));
    if !ok { return; }
    plan := plan.rest;
    t := c.trace;
    ok := Steps.PostInstallCleanup(c);
    ExecPlanStep(c.failing, t, plan, Outcome(c.trace, ok));
    if ok { status := Finished; }
  }

  // ---------------------------------------------------------------- setup_user

  /** The calls `setup_user` makes, in order: create the user with a home and fish as shell,
      set the password, install the SSH keys with owner-only permissions, and, for an
      administrator, add the user to `wheel`. */
  function UserCalls(username: string, password: string, admin: bool): seq<Call> {
    [ Steps.Cmd(UserAdd(username)), Steps.Cmd(UserChpasswd(username, password)),
      Steps.Cmd(MakeUserSshDir(username)), Put(UserKeys(username)),
      Steps.Cmd(ChmodUserSshDir(username)), Steps.Cmd(ChmodUserKeys(username)),
      Steps.Cmd(ChownUserSsh(username)) ]
    + if admin then [Steps.Cmd(AddToWheel(username))] else []
  }

  function SetupUserScript(username: string, password: string, admin: bool): Script {
    Straight(UserCalls(username, password, admin))
  }

  /** `setup_user(c, username, admin)`, with `password` the one typed at the prompt. */
  method SetupUser(c: Connection, username: string, password: string, admin: bool) returns (status: Status)
    modifies c
    ensures IsLocalHost(c.host) <==> status == Refused
    ensures status == Refused ==> c.trace == old(c.trace)
    ensures !IsLocalHost(c.host) ==>
      && (status == Raised || status == Finished)
      && Outcome(c.trace, status == Finished) == Exec(c.failing, old(c.trace), SetupUserScript(username, password, admin))
  {
    if IsLocalHost(c.host) {
      status := Refused;
      return;
    }
    ghost var calls := UserCalls(username, password, admin);
    status := Raised;
    StraightStep(calls);
    var ok := c.Run(UserAdd(username));
    if !ok { return; }
    calls := calls[1..];
    StraightStep(calls);
    ok := c.Run(UserChpasswd(username, password));
    if !ok { return; }
    calls := calls[1..];
    StraightStep(calls);
    ok := c.Run(MakeUserSshDir(username));
    if !ok { return; }
    calls := calls[1..];
    StraightStep(calls);
    c.Put(UserKeys(username));
    calls := calls[1..];
    StraightStep(calls);
    ok := c.Run(ChmodUserSshDir(username));
    if !ok { return; }
    calls := calls[1..];
    StraightStep(calls);
    ok := c.Run(ChmodUserKeys(username));
    if !ok { return; }
    calls := calls[1..];
    StraightStep(calls);
    ok := c.Run(ChownUserSsh(username));
    if !ok { return; }
    calls := calls[1..];
    StraightStep(calls);
    if admin {
      ok := c.Run(AddToWheel(username));
      if !ok { return; }
      calls := calls[1..];
      StraightStep(calls);
    }
    status := Finished;
  }

  /** `setup_user` stops at the first command that fails, so it finishes exactly when none of
      its commands fails (the `wheel` one only counts for an administrator), and then it has
      made all its calls in order; a user who is not an administrator is never added to
      `wheel`, whatever fails. */
  lemma SetupUserOutcome(failing: iset<Command>, trace: seq<Call>, username: string, password: string, admin: bool)
    ensures var r := Exec(failing, trace, SetupUserScript(username, password, admin));
      && (r.completed <==>
            && UserAdd(username) !in failing && UserChpasswd(username, password) !in failing
            && MakeUserSshDir(username) !in failing && ChmodUserSshDir(username) !in failing
            && ChmodUserKeys(username) !in failing && ChownUserSsh(username) !in failing
            && (admin ==> AddToWheel(username) !in failing))
      && (r.completed ==> r.trace == trace + UserCalls(username, password, admin))
      && |trace| < |r.trace| <= |trace| + |UserCalls(username, password, admin)|
      && r.trace == trace + UserCalls(username, password, admin)[..|r.trace| - |trace|]
      && (forall j :: 0 <= j < |r.trace| - |trace| - 1 ==> !Raises(failing, UserCalls(username, password, admin)[j]))
      && (!r.completed ==> Raises(failing, UserCalls(username, password, admin)[|r.trace| - |trace| - 1]))
      && (!admin ==> forall i :: |trace| <= i < |r.trace| ==> r.trace[i] != Steps.Cmd(AddToWheel(username)))
  {
    var calls := UserCalls(username, password, admin);
    ExecStraight(failing, trace, calls);
    var r := Exec(failing, trace, SetupUserScript(username, password, admin));
    if !Raises(failing, calls[0]) && !Raises(failing, calls[1]) && !Raises(failing, calls[2])
       && !Raises(failing, calls[4]) && !Raises(failing, calls[5]) && !Raises(failing, calls[6])
       && (admin ==> !Raises(failing, calls[7])) {
      forall i | 0 <= i < |calls|
        ensures !Raises(failing, calls[i])
      {
        assert i != 3 ==> i in {0, 1, 2, 4, 5, 6} || (admin && i == 7);
      }
    }
    if !admin {
      forall i | |trace| <= i < |r.trace|
        ensures r.trace[i] != Steps.Cmd(AddToWheel(username))
      {
        assert r.trace[i] == calls[i - |trace|];
      }
    }
  }
}
