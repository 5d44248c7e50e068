/** The provisioning steps of the fabfile, one per helper function. Each step is given twice:
    as a `Script` saying which calls it makes and where it can stop (the specification), and
    as a method that makes those calls on a `Connection`, proved to do exactly what its script
    says. Lemmas below state what each step does on every host. */
module Steps {
  import opened Commands
  import opened Fabric

  /** An un-warned `c.run(Line(cmd))`. */
  function Cmd(cmd: Command): Call {
    Call.Run(cmd, false)
  }

  /** `c.run(Line(ProbeEfi), warn=True)` as it appears in a trace. */
  const UefiCheck := Call.Run(ProbeEfi, true)

  /** A host where the EFI variables directory exists was booted by UEFI. */
  predicate Uefi(failing: iset<Command>) {
    ProbeEfi !in failing
  }

  // ---------------------------------------------------------------- chroot_run, is_uefi

  /** `chroot_run(c, cmd)`: one un-warned run of `cmd` inside the chroot. */
  method ChrootRun(c: Connection, cmd: ChrootCommand) returns (ok: bool)
    modifies c
    ensures c.trace == old(c.trace) + [Cmd(InChroot(cmd))]
    ensures ok <==> InChroot(cmd) !in c.failing
    ensures forall k :: Exec(c.failing, old(c.trace), Then(Cmd(InChroot(cmd)), k)) ==
                        (if ok then Exec(c.failing, c.trace, k) else Outcome(c.trace, false))
  {
    ok := c.Run(InChroot(cmd));
  }

  /** `is_uefi(c)`: a warned run of the probe, asked afresh on every use. */
  method IsUefi(c: Connection) returns (uefi: bool)
    modifies c
    ensures c.trace == old(c.trace) + [UefiCheck]
    ensures uefi <==> Uefi(c.failing)
    ensures forall yes, no :: Exec(c.failing, old(c.trace), Check(ProbeEfi, yes, no)) ==
                              Exec(c.failing, c.trace, if uefi then yes else no)
  {
    uefi := c.RunWarn(ProbeEfi);
  }

  // ---------------------------------------------------------------- is_internet_connected, enable_ntp

  function PingScript(): Script {
    Then(Cmd(Ping), Done)
  }

  /** `is_internet_connected(c)`: the ping is un-warned, so a failed ping raises rather than
      returning false; `connected` is false exactly when it raised. */
  method IsInternetConnected(c: Connection) returns (connected: bool)
    modifies c
    ensures Outcome(c.trace, connected) == Exec(c.failing, old(c.trace), PingScript())
  {
    connected := c.Run(Ping);
  }

  function EnableNtpScript(): Script {
    Then(Cmd(SetNtp), Done)
  }

  method EnableNtp(c: Connection) returns (completed: bool)
    modifies c
    ensures Outcome(c.trace, completed) == Exec(c.failing, old(c.trace), EnableNtpScript())
  {
    completed := c.Run(SetNtp);
  }

  // ---------------------------------------------------------------- partition_disk

  /** The five commands common to both firmware kinds: partition 2 becomes one LVM volume
      group `vg-os` with a logical volume `lv-root` formatted as ext4. */
  function LvmCalls(device: string): seq<Call> {
    [Cmd(LvmFlag(device)), Cmd(PvCreate(device)), Cmd(VgCreate(device)), Cmd(LvCreate), Cmd(FormatRoot)]
  }

  function LvmScript(device: string): Script {
    Then(Cmd(LvmFlag(device)), Then(Cmd(PvCreate(device)), Then(Cmd(VgCreate(device)),
      Then(Cmd(LvCreate), Then(Cmd(FormatRoot), Done)))))
  }

  function PartitionDiskScript(device: string): Script {
    Then(Cmd(TestBlock(device)),
      Check(ProbeEfi,
        Then(Cmd(EspLayout(device)), Then(Cmd(FormatEsp(device)), LvmScript(device))),
        Then(Cmd(BiosLayout(device)), LvmScript(device))))
  }

  /** `partition_disk(c, device)`. The device test is un-warned, so a missing block device
      raises before anything is written. */
  method PartitionDisk(c: Connection, device: string) returns (completed: bool)
    modifies c
    ensures Outcome(c.trace, completed) == Exec(c.failing, old(c.trace), PartitionDiskScript(device))
  {
    completed := c.Run(TestBlock(device));
    if !completed { return; }
    var uefi := IsUefi(c);
    if uefi {
      completed := c.Run(EspLayout(device));
      if !completed { return; }
      completed := c.Run(FormatEsp(device));
      if !completed { return; }
    } else {
      completed := c.Run(BiosLayout(device));
      if !completed { return; }
    }
    assert Exec(c.failing, old(c.trace), PartitionDiskScript(device)) == Exec(c.failing, c.trace, LvmScript(device));
    completed := c.Run(LvmFlag(device));
    if !completed { return; }
    completed := c.Run(PvCreate(device));
    if !completed { return; }
    completed := c.Run(VgCreate(device));
    if !completed { return; }
    completed := c.Run(LvCreate);
    if !completed { return; }
    completed := c.Run(FormatRoot);
  }

  // ---------------------------------------------------------------- mount_partitions, upload_mirrorlist

  function MountPartitionsScript(): Script {
    Then(Cmd(MountRoot),
      Check(ProbeEfi, Then(Cmd(MakeEspDir), Then(Cmd(MountEsp), Done)), Done))
  }

  method MountPartitions(c: Connection) returns (completed: bool)
    modifies c
    ensures Outcome(c.trace, completed) == Exec(c.failing, old(c.trace), MountPartitionsScript())
  {
    completed := c.Run(MountRoot);
    if !completed { return; }
    var uefi := IsUefi(c);
    if uefi {
      completed := c.Run(MakeEspDir);
      if !completed { return; }
      completed := c.Run(MountEsp);
    }
  }

  /** The default `mirrorlist` argument of `upload_mirrorlist`. */
  const MirrorlistPath := "/etc/pacman.d/mirrorlist"

  function UploadMirrorlistScript(mirrorlist: string): Script {
    Then(Put(Mirrorlist(mirrorlist)), Done)
  }

  /** `upload_mirrorlist(c, mirrorlist)`: copies the local file over the live system's mirrorlist. */
  method UploadMirrorlist(c: Connection, mirrorlist: string) returns (completed: bool)
    modifies c
    ensures Outcome(c.trace, completed) == Exec(c.failing, old(c.trace), UploadMirrorlistScript(mirrorlist))
  {
    c.Put(Mirrorlist(mirrorlist));
    completed := true;
  }

  // ---------------------------------------------------------------- install_base

  /** The default `packages` argument of `install_base`. */
  const DefaultPackages: seq<string> := ["base", "base-devel", "grub", "openssh", "neovim",
    "bash-completion", "python", "fish", "haveged", "termite-terminfo"]

  /** The list `install_base` installs: `packages`, with `efibootmgr` appended when GRUB is to be
      installed on a UEFI host (the probe is only asked when `grub` is in the list). */
  function WithFirmware(failing: iset<Command>, packages: seq<string>): seq<string> {
    if "grub" in packages && Uefi(failing) then packages + ["efibootmgr"] else packages
  }

  /** Mount the package cache, then pacstrap `packages`, with `-c` only if the mount succeeded. */
  function PacstrapScript(packages: seq<string>): Script {
    Try(MountCache, Then(Cmd(Pacstrap(false, packages)), Done), Then(Cmd(Pacstrap(true, packages)), Done))
  }

  function InstallBaseScript(packages: seq<string>): Script {
    if "grub" in packages then
      Check(ProbeEfi, PacstrapScript(packages + ["efibootmgr"]), PacstrapScript(packages))
    else PacstrapScript(packages)
  }

  /** A Python list that `install_base` appends to in place. */
  class PackageList {
    var items: seq<string>

    constructor (items: seq<string>)
      ensures this.items == items
    {
      this.items := items;
    }

    /** `list.append(name)` */
    method Append(name: string)
      modifies this
      ensures items == old(items) + [name]
    {
      items := items + [name];
    }
  }

  /** `install_base(c, packages)`. The list is changed in place, so when the caller relies on the
      default argument, the one list object shared by every call grows each time. */
  method InstallBase(c: Connection, packages: PackageList) returns (completed: bool)
    modifies c, packages
    ensures packages.items == WithFirmware(c.failing, old(packages.items))
    ensures Outcome(c.trace, completed) == Exec(c.failing, old(c.trace), InstallBaseScript(old(packages.items)))
  {
    if "grub" in packages.items {
      var uefi := IsUefi(c);
      if uefi {
        packages.Append("efibootmgr");
      }
    }
    var p := packages.items;
    var mounted := c.Run(MountCache);
    if !mounted {
      completed := c.Run(Pacstrap(false, p));
    } else {
      completed := c.Run(Pacstrap(true, p));
    }
  }

  // ---------------------------------------------------------------- create_fstab, set_timezone, set_locale

  function CreateFstabScript(): Script {
    Then(Cmd(GenFstab), Then(Cmd(ShowFstab), Done))
  }

  method CreateFstab(c: Connection) returns (completed: bool)
    modifies c
    ensures Outcome(c.trace, completed) == Exec(c.failing, old(c.trace), CreateFstabScript())
  {
    completed := c.Run(GenFstab);
    if !completed { return; }
    completed := c.Run(ShowFstab);
  }

  function SetTimezoneScript(): Script {
    Then(Cmd(InChroot(LinkLocaltime)), Then(Cmd(InChroot(SyncHwclock)), Done))
  }

  method SetTimezone(c: Connection) returns (completed: bool)
    modifies c
    ensures Outcome(c.trace, completed) == Exec(c.failing, old(c.trace), SetTimezoneScript())
  {
    completed := ChrootRun(c, LinkLocaltime);
    if !completed { return; }
    completed := ChrootRun(c, SyncHwclock);
  }

  function SetLocaleScript(): Script {
    Then(Cmd(InChroot(EnableLocale)), Then(Cmd(InChroot(GenerateLocales)), Then(Cmd(InChroot(SetLang)), Done)))
  }

  method SetLocale(c: Connection) returns (completed: bool)
    modifies c
    ensures Outcome(c.trace, completed) == Exec(c.failing, old(c.trace), SetLocaleScript())
  {
    completed := ChrootRun(c, EnableLocale);
    if !completed { return; }
    completed := ChrootRun(c, GenerateLocales);
    if !completed { return; }
    completed := ChrootRun(c, SetLang);
  }

  // ---------------------------------------------------------------- set_hostname

  /** The four chroot commands of `set_hostname`, in order. */
  function HostnameCalls(hostname: string): seq<Call> {
    [Cmd(InChroot(WriteHostname(hostname))), Cmd(InChroot(HostsLocal4)),
     Cmd(InChroot(HostsLocal6)), Cmd(InChroot(HostsSelf(hostname)))]
  }

  function SetHostnameScript(hostname: string): Script {
    Then(Cmd(InChroot(WriteHostname(hostname))), Then(Cmd(InChroot(HostsLocal4)),
      Then(Cmd(InChroot(HostsLocal6)), Then(Cmd(InChroot(HostsSelf(hostname))), Done))))
  }

  method SetHostname(c: Connection, hostname: string) returns (completed: bool)
    modifies c
    ensures Outcome(c.trace, completed) == Exec(c.failing, old(c.trace), SetHostnameScript(hostname))
  {
    completed := ChrootRun(c, WriteHostname(hostname));
    if !completed { return; }
    completed := ChrootRun(c, HostsLocal4);
    if !completed { return; }
    completed := ChrootRun(c, HostsLocal6);
    if !completed { return; }
    completed := ChrootRun(c, HostsSelf(hostname));
  }

  // ---------------------------------------------------------------- enable_dhcp, enable_root_ssh, enable_haveged

  function EnableDhcpScript(): Script {
    Then(Put(DhcpNetwork), Then(Cmd(InChroot(EnableNetworkd)),
      Then(Cmd(LinkResolvConf), Then(Cmd(InChroot(EnableResolved)), Done))))
  }

  method EnableDhcp(c: Connection) returns (completed: bool)
    modifies c
    ensures Outcome(c.trace, completed) == Exec(c.failing, old(c.trace), EnableDhcpScript())
  {
    c.Put(DhcpNetwork);
    completed := ChrootRun(c, EnableNetworkd);
    if !completed { return; }
    completed := c.Run(LinkResolvConf);
    if !completed { return; }
    completed := ChrootRun(c, EnableResolved);
  }

  function EnableRootSshScript(): Script {
    Then(Cmd(PermitRootLogin), Then(Cmd(InChroot(EnableSshd)), Done))
  }

  method EnableRootSsh(c: Connection) returns (completed: bool)
    modifies c
    ensures Outcome(c.trace, completed) == Exec(c.failing, old(c.trace), EnableRootSshScript())
  {
    completed := c.Run(PermitRootLogin);
    if !completed { return; }
    completed := ChrootRun(c, EnableSshd);
  }

  function EnableHavegedScript(): Script {
    Then(Cmd(InChroot(EnableHavegedService)), Done)
  }

  method EnableHaveged(c: Connection) returns (completed: bool)
    modifies c
    ensures Outcome(c.trace, completed) == Exec(c.failing, old(c.trace), EnableHavegedScript())
  {
    completed := ChrootRun(c, EnableHavegedService);
  }

  // ---------------------------------------------------------------- make_initramfs, set_root_password

  function MakeInitramfsScript(): Script {
    Then(Cmd(AddLvmHook), Then(Cmd(InChroot(BuildInitramfs)), Done))
  }

  /** `make_initramfs(c)`: adds the lvm2 hook after `block` (keeping a .bak copy) and rebuilds. */
  method MakeInitramfs(c: Connection) returns (completed: bool)
    modifies c
    ensures Outcome(c.trace, completed) == Exec(c.failing, old(c.trace), MakeInitramfsScript())
  {
    completed := c.Run(AddLvmHook);
    if !completed { return; }
    completed := ChrootRun(c, BuildInitramfs);
  }

  /** With no password among the connection arguments the lookup raises `KeyError`. */
  function SetRootPasswordScript(password: Option<string>): Script {
    match password
    case None => Raise
    case Some(p) => Then(Cmd(InChroot(RootChpasswd(p))), Done)
  }

  /** `set_root_password(c)`: root gets the password used for the SSH connection. */
  method SetRootPassword(c: Connection) returns (completed: bool)
    modifies c
    ensures Outcome(c.trace, completed) == Exec(c.failing, old(c.trace), SetRootPasswordScript(c.password))
  {
    match c.password
    case None =>
      completed := false;
    case Some(passwd) =>
      completed := ChrootRun(c, RootChpasswd(passwd));
  }

  // ---------------------------------------------------------------- install_grub

  function InstallGrubScript(): Script {
    Check(ProbeEfi,
      Then(Cmd(InChroot(GrubInstallEfi)), Then(Cmd(InChroot(GrubConfig)), Done)),
      Then(Cmd(InChroot(GrubInstallBios)), Then(Cmd(InChroot(GrubConfig)), Done)))
  }

  method InstallGrub(c: Connection) returns (completed: bool)
    modifies c
    ensures Outcome(c.trace, completed) == Exec(c.failing, old(c.trace), InstallGrubScript())
  {
    var uefi := IsUefi(c);
    if uefi {
      completed := ChrootRun(c, GrubInstallEfi);
    } else {
      completed := ChrootRun(c, GrubInstallBios);
    }
    if !completed { return; }
    completed := ChrootRun(c, GrubConfig);
  }

  // ---------------------------------------------------------------- setup_sudo, create_skel, install_keys

  function SetupSudoScript(): Script {
    Then(Put(Sudoers), Done)
  }

  method SetupSudo(c: Connection) returns (completed: bool)
    modifies c
    ensures Outcome(c.trace, completed) == Exec(c.failing, old(c.trace), SetupSudoScript())
  {
    c.Put(Sudoers);
    completed := true;
  }

  function CreateSkelScript(): Script {
    Then(Cmd(MakeSkelDir), Then(Put(NvimInit), Done))
  }

  method CreateSkel(c: Connection) returns (completed: bool)
    modifies c
    ensures Outcome(c.trace, completed) == Exec(c.failing, old(c.trace), CreateSkelScript())
  {
    completed := c.Run(MakeSkelDir);
    if !completed { return; }
    c.Put(NvimInit);
  }

  function InstallKeysScript(): Script {
    Then(Cmd(MakeRootSshDir), Then(Cmd(ChmodRootSshDir), Then(Put(RootKeys), Done)))
  }

  method InstallKeys(c: Connection) returns (completed: bool)
    modifies c
    ensures Outcome(c.trace, completed) == Exec(c.failing, old(c.trace), InstallKeysScript())
  {
    completed := c.Run(MakeRootSshDir);
    if !completed { return; }
    completed := c.Run(ChmodRootSshDir);
    if !completed { return; }
    c.Put(RootKeys);
  }

  // ---------------------------------------------------------------- post_install_cleanup

  const UnmountMnt := Call.Run(UnmountAll, true)

  function CleanupScript(): Script {
    Then(UnmountMnt, Try(ProbeCache, Done, Then(Cmd(UnmountCache), Done)))
  }

  /** `post_install_cleanup(c)`: unmount /mnt (failure ignored), then unmount the package cache
      if it is mounted. */
  method PostInstallCleanup(c: Connection) returns (completed: bool)
    modifies c
    ensures Outcome(c.trace, completed) == Exec(c.failing, old(c.trace), CleanupScript())
  {
    var unmounted := c.RunWarn(UnmountAll);
    var cached := c.Run(ProbeCache);
    if !cached {
      completed := true;
    } else {
      completed := c.Run(UnmountCache);
    }
  }

  // ---------------------------------------------------------------- what the steps do

  /** The calls `partition_disk` makes on a host where nothing fails: the device test, the
      firmware probe, the layout of this host's firmware, then the LVM setup. */
  function PartitionCalls(failing: iset<Command>, device: string): seq<Call> {
    [Cmd(TestBlock(device)), UefiCheck]
    + (if Uefi(failing) then [Cmd(EspLayout(device)), Cmd(FormatEsp(device))] else [Cmd(BiosLayout(device))])
    + LvmCalls(device)
  }

  /** `partition_disk`: on every run the calls made are the first calls of `PartitionCalls`, up
      to the first failure, so a missing device raises before the disk is touched and the LVM
      setup comes last. The step completes exactly when none of its un-warned commands fails,
      and then it has made all of `PartitionCalls`. */
  lemma PartitionDiskOutcome(failing: iset<Command>, trace: seq<Call>, device: string)
    ensures var r := Exec(failing, trace, PartitionDiskScript(device));
      var full := trace + PartitionCalls(failing, device);
      && |trace| < |r.trace| <= |full|
      && r.trace == full[..|r.trace|]
      && (TestBlock(device) in failing ==> r == Outcome(trace + [Cmd(TestBlock(device))], false))
      && (forall i :: |trace| <= i < |r.trace| - 1 ==> !Raises(failing, r.trace[i]))
      && (!r.completed ==> Raises(failing, r.trace[|r.trace| - 1]))
      && (r.completed ==> r.trace == full)
      && (r.completed <==>
            && TestBlock(device) !in failing
            && (Uefi(failing) ==> EspLayout(device) !in failing && FormatEsp(device) !in failing)
            && (!Uefi(failing) ==> BiosLayout(device) !in failing)
            && forall i :: 0 <= i < 5 ==> LvmCalls(device)[i].cmd !in failing)
  {
    var r := Exec(failing, trace, PartitionDiskScript(device));
    var lvm := LvmScript(device);
    var layout := if Uefi(failing) then [Cmd(EspLayout(device)), Cmd(FormatEsp(device))] else [Cmd(BiosLayout(device))];
    var head := trace + [Cmd(TestBlock(device)), UefiCheck] + layout;
    var full := trace + PartitionCalls(failing, device);
    assert full == head + LvmCalls(device);
    var t1 := trace + [Cmd(TestBlock(device))];
    var t2 := t1 + [UefiCheck];
    PartitionDiskNoHandler(device);
    ExecStops(failing, trace, PartitionDiskScript(device));
    if TestBlock(device) !in failing {
      assert r == Exec(failing, t1, Check(ProbeEfi, Then(Cmd(EspLayout(device)), Then(Cmd(FormatEsp(device)), lvm)),
                                                    Then(Cmd(BiosLayout(device)), lvm)));
      assert r == Exec(failing, t2, if Uefi(failing) then Then(Cmd(EspLayout(device)), Then(Cmd(FormatEsp(device)), lvm))
                                    else Then(Cmd(BiosLayout(device)), lvm));
      var t3 := t2 + [layout[0]];
      if Uefi(failing) {
        if EspLayout(device) !in failing {
          assert r == Exec(failing, t3, Then(Cmd(FormatEsp(device)), lvm));
          if FormatEsp(device) !in failing {
            assert head == t3 + [Cmd(FormatEsp(device))];
            assert r == Exec(failing, head, lvm);
            LvmOutcome(failing, head, device);
          } else {
            assert r.trace == head;
          }
        } else {
          assert r.trace == t3 && t3 == full[..|t3|];
        }
      } else if BiosLayout(device) !in failing {
        assert head == t3;
        assert r == Exec(failing, head, lvm);
        LvmOutcome(failing, head, device);
      } else {
        assert r.trace == head;
      }
    }
  }

  /** `partition_disk` catches nothing. */
  lemma PartitionDiskNoHandler(device: string)
    ensures NoHandler(PartitionDiskScript(device))
  {
    var lvm := LvmScript(device);
    LvmScriptStraight(device);
    StraightNoHandler(LvmCalls(device));
    assert NoHandler(Then(Cmd(EspLayout(device)), Then(Cmd(FormatEsp(device)), lvm)));
    assert NoHandler(Then(Cmd(BiosLayout(device)), lvm));
  }

  /** The firmware branches of `partition_disk` never mix, whichever command fails: a BIOS host
      never gets the EFI layout or `mkfs.fat`, and a UEFI host never gets the BIOS layout. */
  lemma PartitionDiskBranches(failing: iset<Command>, trace: seq<Call>, device: string)
    ensures var r := Exec(failing, trace, PartitionDiskScript(device));
      && (!Uefi(failing) ==> forall i :: |trace| <= i < |r.trace| ==>
            r.trace[i] != Cmd(EspLayout(device)) && r.trace[i] != Cmd(FormatEsp(device)))
      && (Uefi(failing) ==> forall i :: |trace| <= i < |r.trace| ==> r.trace[i] != Cmd(BiosLayout(device)))
  {
    PartitionDiskOutcome(failing, trace, device);
    var r := Exec(failing, trace, PartitionDiskScript(device));
    var full := trace + PartitionCalls(failing, device);
    forall i | |trace| <= i < |r.trace|
      ensures r.trace[i] == PartitionCalls(failing, device)[i - |trace|]
    {
      assert r.trace[i] == full[..|r.trace|][i];
    }
  }

  /** The five LVM commands as the straight run `LvmCalls`. */
  lemma LvmScriptStraight(device: string)
    ensures LvmScript(device) == Straight(LvmCalls(device))
  {
    var l := LvmCalls(device);
    assert Straight(l[4..]) == Then(Cmd(FormatRoot), Done) by {
      StraightStep(l[4..]);
      assert l[4..][1..] == [];
    }
    assert Straight(l[3..]) == Then(Cmd(LvCreate), Straight(l[4..])) by {
      StraightStep(l[3..]);
      assert l[3..][1..] == l[4..];
    }
    assert Straight(l[2..]) == Then(Cmd(VgCreate(device)), Straight(l[3..])) by {
      StraightStep(l[2..]);
      assert l[2..][1..] == l[3..];
    }
    assert Straight(l[1..]) == Then(Cmd(PvCreate(device)), Straight(l[2..])) by {
      StraightStep(l[1..]);
      assert l[1..][1..] == l[2..];
    }
    StraightStep(l);
  }

  /** The LVM part of `partition_disk`: its five commands in order, stopping at the first failure. */
  lemma LvmOutcome(failing: iset<Command>, trace: seq<Call>, device: string)
    ensures var r := Exec(failing, trace, LvmScript(device));
      && |trace| <= |r.trace| <= |trace| + 5
      && r.trace == trace + LvmCalls(device)[..|r.trace| - |trace|]
      && (r.completed ==> r.trace == trace + LvmCalls(device))
      && (r.completed <==> forall i :: 0 <= i < 5 ==> LvmCalls(device)[i].cmd !in failing)
      && (forall j :: 0 <= j < |r.trace| - |trace| - 1 ==> LvmCalls(device)[j].cmd !in failing)
      && (!r.completed ==> |trace| < |r.trace| && LvmCalls(device)[|r.trace| - |trace| - 1].cmd in failing)
  {
    var l := LvmCalls(device);
    LvmScriptStraight(device);
    ExecStraight(failing, trace, l);
    assert forall i :: 0 <= i < 5 ==> (Raises(failing, l[i]) <==> l[i].cmd in failing);
  }

  /** `mount_partitions`: on every run the root volume is mounted first, and the calls made
      are the first calls of: the root mount, the firmware probe, and, only on a UEFI host,
      creating and mounting /mnt/boot/efi. A BIOS host gets no call after the probe. */
  lemma MountPartitionsOutcome(failing: iset<Command>, trace: seq<Call>)
    ensures var r := Exec(failing, trace, MountPartitionsScript());
      var full := trace + [Cmd(MountRoot), UefiCheck] + (if Uefi(failing) then [Cmd(MakeEspDir), Cmd(MountEsp)] else []);
      && |trace| < |r.trace| <= |full|
      && r.trace == full[..|r.trace|]
      && r.trace[|trace|] == Cmd(MountRoot)
      && (!Uefi(failing) ==> |r.trace| <= |trace| + 2)
      && (forall i :: |trace| <= i < |r.trace| - 1 ==> !Raises(failing, r.trace[i]))
      && (!r.completed ==> Raises(failing, r.trace[|r.trace| - 1]))
      && (r.completed ==> r.trace == full)
      && (r.completed <==>
            && MountRoot !in failing
            && (Uefi(failing) ==> MakeEspDir !in failing && MountEsp !in failing))
  {
    var r := Exec(failing, trace, MountPartitionsScript());
    var full := trace + [Cmd(MountRoot), UefiCheck] + (if Uefi(failing) then [Cmd(MakeEspDir), Cmd(MountEsp)] else []);
    var t1 := trace + [Cmd(MountRoot)];
    var t2 := t1 + [UefiCheck];
    var esp := Then(Cmd(MakeEspDir), Then(Cmd(MountEsp), Done));
    ExecStops(failing, trace, MountPartitionsScript());
    if MountRoot !in failing {
      assert r == Exec(failing, t1, Check(ProbeEfi, esp, Done));
      assert r == Exec(failing, t2, if Uefi(failing) then esp else Done);
      if Uefi(failing) {
        var t3 := t2 + [Cmd(MakeEspDir)];
        if MakeEspDir !in failing {
          assert r == Exec(failing, t3, Then(Cmd(MountEsp), Done));
          assert t3 + [Cmd(MountEsp)] == full;
        } else {
          assert r.trace == t3 && t3 == full[..|t3|];
        }
      } else {
        assert r.trace == t2 && t2 == full;
      }
    } else {
      assert r.trace == t1 && t1 == full[..|t1|];
    }
  }

  /** `install_base` keeps the list it is given and adds `efibootmgr` at the end exactly when
      `grub` is in it and the host is UEFI; the pacstrap line then ends in " efibootmgr". */
  lemma WithFirmwareSpec(failing: iset<Command>, packages: seq<string>)
    ensures var p := WithFirmware(failing, packages);
      && |packages| <= |p|
      && p[..|packages|] == packages
      && multiset(p)["efibootmgr"] ==
           multiset(packages)["efibootmgr"] + (if "grub" in packages && Uefi(failing) then 1 else 0)
      && (|p| == |packages| + 1 <==> "grub" in packages && Uefi(failing))
      && (!("grub" in packages && Uefi(failing)) ==> p == packages)
      && (|p| == |packages| + 1 ==>
            && p[|packages|] == "efibootmgr"
            && PacstrapLine(true, p) == PacstrapLine(true, packages) + " efibootmgr"
            && PacstrapLine(false, p) == PacstrapLine(false, packages) + " efibootmgr")
  {
    var p := WithFirmware(failing, packages);
    if "grub" in packages && Uefi(failing) {
      assert p[..|packages|] == packages;
      PacstrapSnoc(true, packages, "efibootmgr");
      PacstrapSnoc(false, packages, "efibootmgr");
    }
  }

  /** With the default list, `efibootmgr` is installed once on a UEFI host and not at all on a
      BIOS host. */
  lemma DefaultPackagesFirmware(failing: iset<Command>)
    ensures "efibootmgr" in WithFirmware(failing, DefaultPackages) <==> Uefi(failing)
    ensures WithFirmware(failing, DefaultPackages)[..|DefaultPackages|] == DefaultPackages
    ensures |WithFirmware(failing, DefaultPackages)| == |DefaultPackages| + if Uefi(failing) then 1 else 0
  {
    assert DefaultPackages[2] == "grub";
    forall i | 0 <= i < |DefaultPackages|
      ensures DefaultPackages[i] != "efibootmgr"
    {
      assert |DefaultPackages[i]| != 10 || DefaultPackages[i][0] != 'e';
    }
    WithFirmwareSpec(failing, DefaultPackages);
  }

  /** The default list is one object shared by every call of `install_base` in the same
      process, and the UEFI branch appends to it. After a UEFI host, the next host gets
      `efibootmgr` even when it boots by BIOS, and one more copy of it when it is UEFI too. */
  lemma SharedListLeak(first: iset<Command>, second: iset<Command>, packages: seq<string>)
    requires "grub" in packages && Uefi(first)
    ensures var after := WithFirmware(first, packages);
      && "efibootmgr" in WithFirmware(second, after)
      && multiset(WithFirmware(second, after))["efibootmgr"] ==
           multiset(packages)["efibootmgr"] + (if Uefi(second) then 2 else 1)
  {
    var after := WithFirmware(first, packages);
    WithFirmwareSpec(first, packages);
    assert "grub" in after by {
      var k :| 0 <= k < |packages| && packages[k] == "grub";
      assert after[k] == "grub";
    }
    WithFirmwareSpec(second, after);
    var again := WithFirmware(second, after);
    assert again[|packages|] == "efibootmgr" by {
      assert again[..|after|] == after;
    }
  }

  /** With the default list: the first host gets `efibootmgr` only if it is UEFI, and a BIOS
      host after a UEFI host gets it although it has no use for it. */
  lemma SharedDefaultsLeak(first: iset<Command>, second: iset<Command>)
    requires Uefi(first) && !Uefi(second)
    ensures "efibootmgr" !in WithFirmware(second, DefaultPackages)
    ensures "efibootmgr" in WithFirmware(second, WithFirmware(first, DefaultPackages))
  {
    DefaultPackagesFirmware(second);
    assert DefaultPackages[2] == "grub";
    SharedListLeak(first, second, DefaultPackages);
  }

  /** `install_base(c)` as intended: each call starts from a fresh copy of the default list,
      so what it installs depends on this host alone, and `efibootmgr` is installed exactly
      on a UEFI host. */
  method InstallBaseDefaults(c: Connection) returns (completed: bool)
    modifies c
    ensures Outcome(c.trace, completed) == Exec(c.failing, old(c.trace), InstallBaseScript(DefaultPackages))
    ensures completed ==> Cmd(Pacstrap(MountCache !in c.failing, WithFirmware(c.failing, DefaultPackages))) in c.trace
    ensures "efibootmgr" in WithFirmware(c.failing, DefaultPackages) <==> Uefi(c.failing)
  {
    var packages := new PackageList(DefaultPackages);
    completed := InstallBase(c, packages);
    InstallBaseOutcome(c.failing, old(c.trace), DefaultPackages);
    DefaultPackagesFirmware(c.failing);
  }

  /** `install_base`: the probe is only made when `grub` is to be installed; the cache mount
      is always tried and its failure is caught; then exactly one pacstrap runs, with `-c`
      precisely when the mount succeeded, on the list with `efibootmgr` added for UEFI. The step
      completes exactly when that pacstrap succeeds. */
  lemma InstallBaseOutcome(failing: iset<Command>, trace: seq<Call>, packages: seq<string>)
    ensures var r := Exec(failing, trace, InstallBaseScript(packages));
      var pacstrap := Pacstrap(MountCache !in failing, WithFirmware(failing, packages));
      && r.trace == (if "grub" in packages then trace + [UefiCheck] else trace) + [Cmd(MountCache), Cmd(pacstrap)]
      && (r.completed <==> pacstrap !in failing)
  {
    var t0 := if "grub" in packages then trace + [UefiCheck] else trace;
    var p := WithFirmware(failing, packages);
    assert Exec(failing, trace, InstallBaseScript(packages)) == Exec(failing, t0, PacstrapScript(p));
    var t1 := t0 + [Cmd(MountCache)];
    var pacstrap := Pacstrap(MountCache !in failing, p);
    assert Exec(failing, t0, PacstrapScript(p)) == Exec(failing, t1, Then(Cmd(pacstrap), Done));
    assert Exec(failing, t1, Then(Cmd(pacstrap), Done)) == Outcome(t1 + [Cmd(pacstrap)], pacstrap !in failing);
    assert t1 + [Cmd(pacstrap)] == t0 + [Cmd(MountCache), Cmd(pacstrap)];
  }

  /** `install_grub`: the EFI or the BIOS boot loader, never both, then the GRUB configuration,
      which is not generated when the boot loader failed to install. */
  lemma InstallGrubOutcome(failing: iset<Command>, trace: seq<Call>)
    ensures var r := Exec(failing, trace, InstallGrubScript());
      var install := InChroot(if Uefi(failing) then GrubInstallEfi else GrubInstallBios);
      && (install in failing ==> r == Outcome(trace + [UefiCheck, Cmd(install)], false))
      && (install !in failing ==>
            r == Outcome(trace + [UefiCheck, Cmd(install), Cmd(InChroot(GrubConfig))], InChroot(GrubConfig) !in failing))
  {
    var install := InChroot(if Uefi(failing) then GrubInstallEfi else GrubInstallBios);
    var t1 := trace + [UefiCheck];
    assert Exec(failing, trace, InstallGrubScript()) ==
      Exec(failing, t1, Then(Cmd(install), Then(Cmd(InChroot(GrubConfig)), Done)));
    assert t1 + [Cmd(install)] == trace + [UefiCheck, Cmd(install)];
    assert t1 + [Cmd(install)] + [Cmd(InChroot(GrubConfig))] == trace + [UefiCheck, Cmd(install), Cmd(InChroot(GrubConfig))];
  }

  /** `set_root_password`: without a password among the connection arguments nothing is run and
      the step raises; otherwise one `chpasswd` in the chroot sets root's password to it. */
  lemma SetRootPasswordOutcome(failing: iset<Command>, trace: seq<Call>, password: Option<string>)
    ensures var r := Exec(failing, trace, SetRootPasswordScript(password));
      && (password.None? ==> r == Outcome(trace, false))
      && (password.Some? ==>
            r == Outcome(trace + [Cmd(InChroot(RootChpasswd(password.value)))],
                         InChroot(RootChpasswd(password.value)) !in failing))
  {
  }

  /** `post_install_cleanup`: /mnt is always unmounted, and a failure there is ignored; the
      package cache is unmounted only when the mount table shows it. */
  lemma CleanupOutcome(failing: iset<Command>, trace: seq<Call>)
    ensures var r := Exec(failing, trace, CleanupScript());
      && r.trace == trace + [UnmountMnt, Cmd(ProbeCache)] + (if ProbeCache in failing then [] else [Cmd(UnmountCache)])
      && (r.completed <==> ProbeCache in failing || UnmountCache !in failing)
  {
    var t1 := trace + [UnmountMnt];
    assert Exec(failing, trace, CleanupScript()) == Exec(failing, t1, Try(ProbeCache, Done, Then(Cmd(UnmountCache), Done)));
    assert t1 + [Cmd(ProbeCache)] == trace + [UnmountMnt, Cmd(ProbeCache)];
  }

  /** The four chroot commands of `set_hostname` as the straight run `HostnameCalls`. */
  lemma HostnameScriptStraight(hostname: string)
    ensures SetHostnameScript(hostname) == Straight(HostnameCalls(hostname))
  {
    var l := HostnameCalls(hostname);
    assert Straight(l[3..]) == Then(l[3], Done) by {
      StraightStep(l[3..]);
      assert l[3..][1..] == [];
    }
    assert Straight(l[2..]) == Then(l[2], Straight(l[3..])) by {
      StraightStep(l[2..]);
      assert l[2..][1..] == l[3..];
    }
    assert Straight(l[1..]) == Then(l[1], Straight(l[2..])) by {
      StraightStep(l[1..]);
      assert l[1..][1..] == l[2..];
    }
    StraightStep(l);
  }

  /** `set_hostname`: /etc/hostname, then the three /etc/hosts lines, in this order, all inside
      the chroot, stopping right after the first one that fails; it completes exactly when none
      of the four fails. */
  lemma SetHostnameOutcome(failing: iset<Command>, trace: seq<Call>, hostname: string)
    ensures var r := Exec(failing, trace, SetHostnameScript(hostname));
      && |trace| < |r.trace| <= |trace| + 4
      && r.trace == trace + HostnameCalls(hostname)[..|r.trace| - |trace|]
      && (forall j :: 0 <= j < |r.trace| - |trace| - 1 ==> HostnameCalls(hostname)[j].cmd !in failing)
      && (!r.completed ==> HostnameCalls(hostname)[|r.trace| - |trace| - 1].cmd in failing)
      && (r.completed ==> r.trace == trace + HostnameCalls(hostname))
      && (r.completed <==> forall i :: 0 <= i < 4 ==> HostnameCalls(hostname)[i].cmd !in failing)
  {
    var l := HostnameCalls(hostname);
    HostnameScriptStraight(hostname);
    ExecStraight(failing, trace, l);
    assert forall i :: 0 <= i < 4 ==> (Raises(failing, l[i]) <==> l[i].cmd in failing);
  }
}
