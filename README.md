# Arch Linux provisioning fabfile, modelled in Dafny

`fabfile.py` is a Fabric script that installs Arch Linux on a remote machine booted from the
installation medium. The `provision` task does the following in order:

- refuses to run against the local machine;
- asks the operator for confirmation;
- checks connectivity;
- partitions `/dev/sda` as a single LVM volume group, with a UEFI or a BIOS layout;
- mounts the new partitions;
- bootstraps the base system with `pacstrap`, adding `efibootmgr` on UEFI hosts and using a
  network package cache when it can be mounted;
- configures the new system (fstab, time zone, locale, host name, DHCP, SSH, initramfs, root
  password, GRUB, sudo, keys, skeleton);
- cleans up.

`provision_laptop` runs the same task without the disk, mount, haveged and GRUB steps.
`setup_user` creates a user on an installed machine.

The model describes everything the script does as calls made on a Fabric connection:

- **Commands** (`commands.dfy`). Every shell command and upload is a named constructor. `Line`
  and `ChrootLine` give the exact text Fabric sends for each one. Lemmas state what that text
  is made of where it is built from arguments: the chroot wrapper, the pacstrap line and the
  hostname lines.
- **Fabric** (`fabric.dfy`).
  - A `Connection` class keeps the trace of calls it has made.
  - A fixed set `failing` says which commands exit non-zero on the host.
  - An un-warned `c.run` of a failing command raises `UnexpectedExit`. A `warn=True` run never
    raises.
  - A `Script` describes a step as a tree of calls, with `if c.run(…, warn=True)` branches and
    `try/except UnexpectedExit/else` handlers. `Exec` runs a script against `failing`.
  - A `Plan` is a sequence of named steps. `ExecPlan` runs the steps in order and stops at the
    first step that raises.
- **Steps** (`steps.dfy`). Each step helper that `provision` calls appears twice: once as its
  script (the specification), and once as a method on a `Connection` proved to produce exactly
  the outcome of that script. `chroot_run` and `is_uefi` are methods only; in scripts they are
  a `Then` of a chroot command and a `Check` of the EFI probe. `check_local` is the predicate
  `IsLocalHost` in `tasks.dfy`. Outcome lemmas state the calls made on every host, and where a
  run stops, for `partition_disk`, `mount_partitions`, `install_base`, `set_hostname`,
  `set_root_password`, `install_grub` and `post_install_cleanup`. The other steps are straight
  runs of one to four calls; `Fabric.ExecStraight` gives their outcome. The package list of
  `install_base` is a `PackageList` object, because the source appends to it in place.
- **Tasks** (`tasks.dfy`). This file holds:
  - the safety gate: the localhost test and the y/yes answer;
  - the plans of `provision` and `provision_laptop`, and the methods that run them;
  - `setup_user`;
  - lemmas relating the two plans, and lemmas about step order.

## Model

| member | source | states |
|---|---|---|
| Commands.Chrooted | fabfile.py:11-12 | The line `chroot_run` sends: the arch-chroot prefix, the command, and a closing quote. |
| Commands.ChrootLine | fabfile.py:76-117 | The exact text of every command run inside the chroot. |
| Commands.Line | fabfile.py:16-138 | The exact text of every command run on the host. Chroot commands are wrapped by `Chrooted`. |
| Commands.ChrootedWraps | fabfile.py:11-13 | `chroot_run` sends the arch-chroot prefix, then the command, then a closing quote. The command can be read back from the line, and two lines are equal exactly when the commands are. |
| Commands.Join | fabfile.py:52 | Python's `' '.join`: the words separated by single spaces. The empty list joins to the empty string, and a single word to itself. |
| Commands.JoinSnoc | fabfile.py:52 | `' '.join` of a list extended by one word is the old join, a space, and the word. |
| Commands.PacstrapSnoc | fabfile.py:52-61 | Appending a package to a non-empty list appends a space and its name to both pacstrap lines. |
| Commands.HostnameLines | fabfile.py:84-88 | The /etc/hostname line holds the host name alone. The /etc/hosts entry names the host twice, as `<name>.localdomain` and as `<name>`. |
| Fabric.Exec | fabfile.py:55-61 | Fabric's semantics. An un-warned run of a failing command raises and ends the script, after recording the call. A warned run never raises and its result picks the branch. A `try` records the command and enters `except` exactly when it fails. |
| Fabric.ExecIssuesOwnCalls | fabfile.py:27-38 | A step only appends to the trace. Every call it adds occurs in its script. |
| Fabric.ExecStops | fabfile.py:55-61 | In a script without `try` or `Raise` (the `KeyError` of `set_root_password`), an un-warned command that fails ends the script at once. No call before the last one raised, and a run that did not complete ends with the call that raised. |
| Fabric.ExecStraight | fabfile.py:209-217 | Un-warned calls made one after another are made in order, and the run stops right after the first one that raises. They complete exactly when none raises, and then they have all been made. |
| Fabric.ExecPlan | fabfile.py:150-171 | A task body runs its steps in order. A step that raises ends the task there, and no later step runs. The task completes when every step has. |
| Fabric.ExecPlanIssuesOwnCalls | fabfile.py:150-171 | A task only appends to the trace. Every call it adds occurs in one of its steps. |
| Fabric.Connection.constructor | fabfile.py:140-141 | A fresh connection has made no calls and keeps its host, password and failing set. |
| Fabric.Connection.Run | fabfile.py:55-61 | An un-warned `c.run` records the call and succeeds exactly when the command does not fail. A failure ends any script that does not catch it and enters the `except` branch of a `try`. |
| Fabric.Connection.RunWarn | fabfile.py:24-25 | A `warn=True` run records the call and never raises. Its truth value is whether the command succeeded, and it chooses the branch of an `if`. |
| Fabric.Connection.Put | fabfile.py:46-47 | `c.put` records the upload and never raises. |
| Steps.ChrootRun | fabfile.py:11-13 | `chroot_run` makes one un-warned run of the wrapped command and raises when that command fails. |
| Steps.IsUefi | fabfile.py:24-25 | The EFI probe is a warned run, asked afresh on each use. It is true exactly on a UEFI host. |
| Steps.IsInternetConnected | fabfile.py:15-17 | One un-warned ping. A failed ping raises rather than returning false. |
| Steps.EnableNtp | fabfile.py:19-22 | One un-warned `timedatectl set-ntp true`. |
| Steps.PartitionDiskScript | fabfile.py:27-38 | `partition_disk`: an un-warned `test -b`, then the EFI probe choosing the ESP layout and `mkfs.fat`, or the bios_grub layout, then the five LVM commands. |
| Steps.PartitionDisk | fabfile.py:27-38 | The method makes exactly the calls of the `partition_disk` script and completes exactly when that script does. |
| Steps.PartitionCalls | fabfile.py:28-38 | The calls of `partition_disk` when nothing fails. There is the device test, then the probe. A UEFI host gets the ESP layout and `mkfs.fat` on partition 1, and a BIOS host gets the bios_grub layout. Then come the five LVM commands. |
| Steps.PartitionDiskOutcome | fabfile.py:27-38 | On every run, the calls made are a prefix of `PartitionCalls`. No call before the last one failed, and a run that did not complete ends with the command that failed. A missing block device raises before the disk is touched. The step completes exactly when none of the commands it reached fails, and then it has made all of them. |
| Steps.PartitionDiskBranches | fabfile.py:29-33 | On every run, whatever fails, a BIOS host never gets the ESP layout or `mkfs.fat`. A UEFI host never gets the BIOS layout. |
| Steps.LvmOutcome | fabfile.py:34-38 | On every run, the calls made are a prefix of the five LVM commands, in order. None before the last one failed, and an incomplete run ends with the one that failed. They complete exactly when none fails. |
| Steps.MountPartitionsScript | fabfile.py:40-44 | `mount_partitions`: mount the root volume, then, on a UEFI host only, create and mount /mnt/boot/efi. |
| Steps.MountPartitions | fabfile.py:40-44 | The method makes exactly the calls of the `mount_partitions` script. |
| Steps.MountPartitionsOutcome | fabfile.py:40-44 | On every run, the root volume is mounted first. The calls made are a prefix of the root mount, the probe, and, on a UEFI host only, creating and mounting the ESP. A BIOS host gets nothing after the probe. No call before the last one failed, and an incomplete run ends with the command that failed, so a failed root mount ends the step. The step completes exactly when none of the commands it reached fails. |
| Steps.UploadMirrorlist | fabfile.py:46-47 | One upload of the given local mirrorlist over /etc/pacman.d/mirrorlist; it never fails. |
| Steps.PackageList.constructor | fabfile.py:49 | A list object holding the given names. |
| Steps.PackageList.Append | fabfile.py:51 | `list.append` adds the name at the end, in place. |
| Steps.InstallBaseScript | fabfile.py:49-61 | `install_base`: the EFI probe only when `grub` is listed, choosing whether `efibootmgr` is added. Then the cache mount in a `try`, and pacstrap with `-c` in the `else` branch or without it in `except`. |
| Steps.InstallBase | fabfile.py:49-61 | `install_base` makes exactly the calls of its script. It leaves the list object holding `WithFirmware` of its old contents. |
| Steps.WithFirmware | fabfile.py:50-51 | The list `install_base` installs: the given list, with `efibootmgr` appended when `grub` is in it and the host is UEFI. |
| Steps.WithFirmwareSpec | fabfile.py:50-52 | The installed list keeps the given list as its prefix. It gains exactly one `efibootmgr`, at the end, exactly when `grub` is in the list and the host is UEFI; otherwise it is unchanged. Both pacstrap lines then end in ` efibootmgr`. |
| Steps.DefaultPackagesFirmware | fabfile.py:49-51 | With the default list, `efibootmgr` is installed exactly on a UEFI host, and the list grows by one exactly then. |
| Steps.InstallBaseOutcome | fabfile.py:49-61 | The EFI probe is made only when `grub` is in the list. The cache mount is always tried, and its failure does not abort. Then exactly one pacstrap runs, with `-c` exactly when the mount succeeded, on the list with firmware added. The step completes exactly when that pacstrap succeeds. |
| Steps.SharedListLeak | fabfile.py:49-51 | One list object used for two hosts, the first UEFI: the second host gets `efibootmgr` even on BIOS, and two copies when it is UEFI. |
| Steps.SharedDefaultsLeak | fabfile.py:49-51 | With the shared default list, a BIOS host provisioned after a UEFI host gets `efibootmgr`. A BIOS host on its own would not. |
| Steps.InstallBaseDefaults | fabfile.py:49-61 | `install_base(c)` with a fresh copy of the default list: the pacstrap line depends on this host alone, and `efibootmgr` is installed exactly on a UEFI host. |
| Steps.CreateFstab | fabfile.py:71-73 | `genfstab` then `cat` of the fstab, both un-warned. |
| Steps.SetTimezone | fabfile.py:75-77 | The Toronto localtime link, then `hwclock --systohc`, both in the chroot. |
| Steps.SetLocale | fabfile.py:79-82 | The locale.gen edit, `locale-gen`, then the LANG line, in the chroot. |
| Steps.SetHostname | fabfile.py:84-88 | The method makes exactly the calls of the `set_hostname` script. |
| Steps.SetHostnameOutcome | fabfile.py:84-88 | On every run, the calls made are a prefix of: /etc/hostname, then the three /etc/hosts lines, in the chroot. None before the last one failed, and an incomplete run ends with the write that failed. The step completes exactly when none of the four fails, and then all four have been made. |
| Steps.EnableDhcp | fabfile.py:90-94 | Upload of dhcp.network, enabling networkd, the resolv.conf link, then enabling resolved. |
| Steps.EnableRootSsh | fabfile.py:96-98 | The sshd_config edit, then enabling sshd in the chroot. |
| Steps.EnableHaveged | fabfile.py:100-101 | Enabling haveged in the chroot. |
| Steps.MakeInitramfs | fabfile.py:103-105 | Adding the lvm2 hook, then `mkinitcpio -p linux` in the chroot. |
| Steps.SetRootPasswordScript | fabfile.py:107-109 | `set_root_password`: without a password in the connection arguments, the `KeyError` is raised before any call. Otherwise one chroot `chpasswd` runs with that password. |
| Steps.SetRootPassword | fabfile.py:107-109 | The method makes exactly the calls of the `set_root_password` script, for the connection's password. |
| Steps.SetRootPasswordOutcome | fabfile.py:107-109 | Without a password among the connection arguments, nothing is run and the step raises. Otherwise one `chpasswd` in the chroot sets root's password to that password. |
| Steps.InstallGrubScript | fabfile.py:111-117 | `install_grub`: the EFI probe chooses the EFI or the BIOS `grub-install`, and `grub-mkconfig` follows it. |
| Steps.InstallGrub | fabfile.py:111-117 | The method makes exactly the calls of the `install_grub` script. |
| Steps.InstallGrubOutcome | fabfile.py:111-117 | The EFI or the BIOS boot loader is installed, never both. `grub-mkconfig` follows only when the install succeeded. |
| Steps.SetupSudo | fabfile.py:119-120 | One upload of the wheel sudoers file. |
| Steps.CreateSkel | fabfile.py:122-124 | The skeleton nvim directory, then the upload of init.vim. |
| Steps.InstallKeys | fabfile.py:126-129 | root's .ssh directory, its mode, then the upload of the keys. |
| Steps.CleanupScript | fabfile.py:131-138 | `post_install_cleanup`: a warned `umount -R /mnt`, then the mount-table probe in a `try`. Its `except` does nothing, and its `else` unmounts the cache. |
| Steps.PostInstallCleanup | fabfile.py:131-138 | The method makes exactly the calls of the `post_install_cleanup` script. |
| Steps.CleanupOutcome | fabfile.py:131-138 | `umount -R /mnt` is always made, and its failure is ignored. The cache is unmounted exactly when the mount-table probe succeeds. The step fails only when that unmount fails. |
| Tasks.IsLocalHost | fabfile.py:7 | The host test of `check_local`: the host name starts with `localhost` or `127.`. |
| Tasks.Lower | fabfile.py:146 | `str.lower` on the answer. The length is kept, no upper-case ASCII letter remains, and an upper-case ASCII letter becomes its lower-case letter, and every other character is kept. |
| Tasks.Confirmed | fabfile.py:146 | The answer, lowercased, is `y` or `yes`. |
| Tasks.LocalHostExtends | fabfile.py:6-9 | Every host name that extends a refused name (`localhost…`, `127.…`) is refused too. |
| Tasks.ConfirmedIff | fabfile.py:145-147 | The task goes on exactly for `y` or `yes` in any mix of case. Every other answer, the empty one included, declines. |
| Tasks.ProvisionPlan | fabfile.py:150-171 | The twenty steps of `provision` after the gate, in the order the task calls them, each given by its script. |
| Tasks.LaptopPlan | fabfile.py:183-202 | The sixteen steps of `provision_laptop` after the gate, in order, each given by its script. |
| Tasks.LaptopIsProvisionWithoutDiskAndBoot | fabfile.py:173-202 | The `provision_laptop` plan is the `provision` plan with the partitioning, mounting, haveged and GRUB steps removed. Every other step is kept, in the same order. |
| Tasks.ProvisionNames | fabfile.py:150-171 | The steps of `provision`, by name, in the order the task calls them. |
| Tasks.ProvisionStepsOnce | fabfile.py:150-171 | No helper is called twice by `provision`. |
| Tasks.ProvisionOrder | fabfile.py:150-171 | Partitioning runs before mounting, and mounting before the base install. The root password is set before GRUB is installed. Each of these steps appears exactly once in the plan, which `ExecPlan` runs in order; a step after the one that raised does not run at all. |
| Tasks.ExecAvoids | fabfile.py:183-202 | A script with no disk or boot command adds none to the trace, whatever fails. |
| Tasks.ExecPlanAvoids | fabfile.py:183-202 | The same holds for a whole plan. |
| Tasks.PingAvoids | fabfile.py:15-17 | The connectivity check has no disk or boot command. |
| Tasks.NtpAvoids | fabfile.py:19-22 | `enable_ntp` has no disk or boot command. |
| Tasks.MirrorlistAvoids | fabfile.py:46-47 | `upload_mirrorlist` has no disk or boot command. |
| Tasks.InstallBaseAvoids | fabfile.py:49-61 | `install_base` has no disk or boot command on any branch. |
| Tasks.FstabAvoids | fabfile.py:71-73 | `create_fstab` has no disk or boot command. |
| Tasks.TimezoneAvoids | fabfile.py:75-77 | `set_timezone` has no disk or boot command. |
| Tasks.LocaleAvoids | fabfile.py:79-82 | `set_locale` has no disk or boot command. |
| Tasks.HostnameAvoids | fabfile.py:84-88 | `set_hostname` has no disk or boot command. |
| Tasks.DhcpAvoids | fabfile.py:90-94 | `enable_dhcp` has no disk or boot command. |
| Tasks.RootSshAvoids | fabfile.py:96-98 | `enable_root_ssh` has no disk or boot command. |
| Tasks.InitramfsAvoids | fabfile.py:103-105 | `make_initramfs` has no disk or boot command. |
| Tasks.SudoAvoids | fabfile.py:119-120 | `setup_sudo` has no disk or boot command. |
| Tasks.SkelAvoids | fabfile.py:122-124 | `create_skel` has no disk or boot command. |
| Tasks.KeysAvoids | fabfile.py:126-129 | `install_keys` has no disk or boot command. |
| Tasks.CleanupAvoids | fabfile.py:131-138 | `post_install_cleanup` has no disk or boot command. |
| Tasks.LaptopTailAvoids | fabfile.py:194-202 | The last eight steps of `provision_laptop` have no disk or boot command. |
| Tasks.LaptopAvoids | fabfile.py:183-202 | No step of `provision_laptop` has a disk or boot command. |
| Tasks.LaptopLeavesDiskAndBoot | fabfile.py:183-202 | On any host, whatever fails, `provision_laptop` never issues a partitioning, LVM, format, partition-mount, grub-install, grub-mkconfig or haveged command. It only appends to the trace. |
| Tasks.Provision | fabfile.py:140-171 | A local host is refused and a declined answer stops the task; in both cases nothing is run and the package list is unchanged. Otherwise the calls made, and whether the task finished, are exactly those of the `provision` plan. The default list ends up with firmware added when the task finished. |
| Tasks.ProvisionLaptop | fabfile.py:173-202 | The same gate as `Provision`, then exactly the calls of the `provision_laptop` plan. |
| Tasks.UserCalls | fabfile.py:209-217 | The calls of `setup_user`, in order: `useradd`, `chpasswd`, the .ssh directory, the keys upload, the two `chmod`s and the `chown`. The `wheel` command is added only for an administrator. |
| Tasks.SetupUserScript | fabfile.py:209-217 | `setup_user` is the straight run of `UserCalls`. Every command is un-warned, so the first one that fails ends the task. |
| Tasks.SetupUser | fabfile.py:204-217 | A local host is refused, and exactly then nothing is run. Otherwise the calls made, and whether the task finished, are exactly those of the `setup_user` script. |
| Tasks.SetupUserOutcome | fabfile.py:204-217 | On every run, the calls made are a prefix of the `setup_user` calls. None before the last one raised, and an unfinished run ends with the command that raised. `setup_user` finishes exactly when none of its commands fails; the wheel command only counts for an administrator. When it finishes, all its calls have been made, in order. A user who is not an administrator is never added to `wheel`. |

## Left out

- `patch_arch_chroot` (fabfile.py:63-69) is not modelled. Its only call is commented out at fabfile.py:157.
- `test_task` (fabfile.py:219-231) is not modelled. It is a debugging task that prints the configuration and repeats the cache probe of `post_install_cleanup`.
- `print`, `input`, `getpass` and `sys.exit` are not modelled.
  - The confirmation answer and the new user's password are parameters.
  - The exit in `check_local` is the `Refused` status, with nothing run.
- The `isinstance(c, Connection)` test of `check_local` is not modelled. Every connection in the model is a Fabric connection, so only the host-name test remains.
- Uploads never fail in the model. A failed `c.put` would raise an error that the fabfile does not catch; Fabric's transport is not part of this model.
- What the remote commands do (`parted`, `sed`, `pacstrap`, `chpasswd`, …) is not modelled, and neither are shell quoting or injection through interpolated names and passwords. The model records each command with its exact text and lets a fixed set decide whether it fails.
- The failing set is fixed for the whole run. The model does not capture a command whose result depends on what earlier commands did: for example, `umount` failing because the earlier mount failed. The repeated UEFI probe gets the same answer each time, as it would on a real host.
- The failing set is keyed by command, not by text. For a few commands with interpolated arguments, two different commands could in principle produce the same text; the model treats them as distinct.
- Command output is not modelled: `cat /mnt/etc/fstab` and the `UnexpectedExit` message printed in `install_base`.
- Running a task on several hosts in one `fab` invocation is modelled only through the shared `PackageList` object (see Findings).
- ASCII only: `Lower` lowercases ASCII letters only. Python's `str.lower` also folds other letters, but no such letter can turn an answer into `y` or `yes`.
- Tasks.Provision: when the task raises, whichever step raised, the contract only says the default list holds either its old contents or `WithFirmware` of them. It does not say which: the list is in fact unchanged when the task raised before `install_base`, and this is not stated. `InstallBase` states the exact new contents for the call itself.
- Tasks.ProvisionLaptop: the same weakening as `Tasks.Provision`, for the same reason.
- The ping of `is_internet_connected` (fabfile.py:16) and the `test -b` of `partition_disk` (fabfile.py:28) are un-warned. A failure there raises `UnexpectedExit` and ends the task, so the `if` never sees a false value; the model gives such a run the `Raised` status.
- `efibootmgr` is appended to a default list shared by every call in the process (see Findings), and a list that already contains `efibootmgr` gets a second copy (`Steps.WithFirmwareSpec`).

## Findings

| source | as written | input that shows it | evidently intended | confidence | as-written member | corrected member |
|---|---|---|---|---|---|---|
| fabfile.py:49-51 | `install_base`'s default `packages` list is evaluated once, when the function is defined. `packages.append('efibootmgr')` mutates that shared list. | One `fab` run that provisions a UEFI host and then a BIOS host. The BIOS host's pacstrap line includes `efibootmgr`. A second UEFI host gets it twice. | Each call starts from a fresh copy of the default list, so only UEFI hosts get `efibootmgr`, and they get it once. | medium, not executed | Steps.SharedListLeak, Steps.SharedDefaultsLeak | Steps.InstallBaseDefaults |
