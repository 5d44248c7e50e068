/** The shell commands and uploads the fabfile sends to a host, each named by a constructor,
    with the exact text that Fabric passes to the remote shell (`Line`, `ChrootLine`) and the
    paths of each upload (`Local`, `Remote`). The rest of the model works on the names; the
    text matters only where a step builds it from its arguments. */
module Commands {

  /** Commands run by `chroot_run` inside the new system mounted at /mnt. */
  datatype ChrootCommand =
    // set_timezone, set_locale
    | LinkLocaltime | SyncHwclock | EnableLocale | GenerateLocales | SetLang
    // set_hostname
    | WriteHostname(hostname: string) | HostsLocal4 | HostsLocal6 | HostsSelf(hostname: string)
    // enable_dhcp, enable_root_ssh, enable_haveged
    | EnableNetworkd | EnableResolved | EnableSshd | EnableHavegedService
    // make_initramfs, set_root_password
    | BuildInitramfs | RootChpasswd(password: string)
    // install_grub
    | GrubInstallEfi | GrubInstallBios | GrubConfig

  /** Commands run directly on the host with `c.run`. */
  datatype Command =
    // is_internet_connected, enable_ntp, is_uefi
    | Ping | SetNtp | ProbeEfi
    // partition_disk
    | TestBlock(device: string) | EspLayout(device: string) | FormatEsp(device: string)
    | BiosLayout(device: string) | LvmFlag(device: string) | PvCreate(device: string)
    | VgCreate(device: string) | LvCreate | FormatRoot
    // mount_partitions
    | MountRoot | MakeEspDir | MountEsp
    // install_base
    | MountCache | Pacstrap(cached: bool, packages: seq<string>)
    // create_fstab
    | GenFstab | ShowFstab
    // enable_dhcp, enable_root_ssh, make_initramfs
    | LinkResolvConf | PermitRootLogin | AddLvmHook
    // install_keys, create_skel
    | MakeRootSshDir | ChmodRootSshDir | MakeSkelDir
    // post_install_cleanup
    | UnmountAll | ProbeCache | UnmountCache
    // setup_user
    | UserAdd(user: string) | UserChpasswd(user: string, password: string)
    | MakeUserSshDir(user: string) | ChmodUserSshDir(user: string) | ChmodUserKeys(user: string)
    | ChownUserSsh(user: string) | AddToWheel(user: string)
    // chroot_run
    | InChroot(inner: ChrootCommand)

  /** Files copied to the host with `c.put(local, remote)`. */
  datatype Upload =
    | Mirrorlist(local: string) | DhcpNetwork | Sudoers | NvimInit | RootKeys | UserKeys(user: string)

  /** Python's `' '.join(words)`. */
  function Join(words: seq<string>): string
    decreases |words|
  {
    if |words| == 0 then ""
    else if |words| == 1 then words[0]
    else words[0] + " " + Join(words[1..])
  }

  const ChrootPrefix := "/usr/bin/arch-chroot /mnt sh -c '"

  /** `chroot_run` wraps a command for `sh` inside the chroot. */
  function Chrooted(cmd: string): string {
    ChrootPrefix + cmd + "'"
  }

  /** The pacstrap line: with `-c` (use the host's package cache) or without. */
  function PacstrapLine(cached: bool, packages: seq<string>): string {
    (if cached then "pacstrap -c /mnt " else "pacstrap /mnt ") + Join(packages)
  }

  function HostnameLine(hostname: string): string {
    "echo " + hostname + " > /etc/hostname"
  }

  function HostsSelfLine(hostname: string): string {
    "echo \"127.0.1.1\t" + hostname + ".localdomain\t" + hostname + "\" >> /etc/hosts"
  }

  /** The text of a command run inside the chroot. */
  function ChrootLine(cmd: ChrootCommand): string {
    match cmd
    case LinkLocaltime => "ln -sf /usr/share/zoneinfo/America/Toronto /etc/localtime"
    case SyncHwclock => "hwclock --systohc"
    case EnableLocale => "sed -i \"s/#en_CA.UTF-8/en_CA.UTF-8/\" /etc/locale.gen"
    case GenerateLocales => "locale-gen"
    case SetLang => "echo \"LANG=en_CA.UTF-8\" >> /etc/locale.conf"
    case WriteHostname(hostname) => HostnameLine(hostname)
    case HostsLocal4 => "echo \"127.0.0.1\tlocalhost\" >> /etc/hosts"
    case HostsLocal6 => "echo \"::1\tlocalhost\" >> /etc/hosts"
    case HostsSelf(hostname) => HostsSelfLine(hostname)
    case EnableNetworkd => "systemctl enable systemd-networkd.service"
    case EnableResolved => "systemctl enable systemd-resolved.service"
    case EnableSshd => "systemctl enable sshd.service"
    case EnableHavegedService => "systemctl enable haveged.service"
    case BuildInitramfs => "mkinitcpio -p linux"
    case RootChpasswd(password) => "echo \"root:" + password + "\" | chpasswd"
    case GrubInstallEfi => "grub-install --target=x86_64-efi --efi-directory=/boot/efi --bootloader-id=GRUB"
    case GrubInstallBios => "grub-install --target=i386-pc /dev/sda"
    case GrubConfig => "grub-mkconfig -o /boot/grub/grub.cfg"
  }

  /** The command line Fabric sends for `cmd`. */
  function Line(cmd: Command): string {
    match cmd
    case Ping => "ping -c 3 archlinux.org"
    case SetNtp => "timedatectl set-ntp true"
    case ProbeEfi => "test -d /sys/firmware/efi/efivars"
    case TestBlock(device) => "test -b " + device
    case EspLayout(device) =>
      "parted --script --align optimal " + device + " mklabel gpt mkpart efi fat32 1 512 mkpart root 512 100% set 1 esp on"
    case FormatEsp(device) => "mkfs.fat -F32 " + device + "1"
    case BiosLayout(device) =>
      "parted --script --align optimal " + device + " mklabel gpt mkpart bios_boot 1 2 mkpart root 2 100% set 1 bios_grub on"
    case LvmFlag(device) => "parted --script " + device + " set 2 lvm on print all"
    case PvCreate(device) => "pvcreate " + device + "2"
    case VgCreate(device) => "vgcreate vg-os " + device + "2"
    case LvCreate => "lvcreate -n lv-root -l 50%VG vg-os"
    case FormatRoot => "mkfs.ext4 /dev/vg-os/lv-root"
    case MountRoot => "mount /dev/vg-os/lv-root /mnt"
    case MakeEspDir => "mkdir -p /mnt/boot/efi"
    case MountEsp => "mount /dev/sda1 /mnt/boot/efi"
    case MountCache => "mount -t nfs -o timeo=100,retry=0 192.168.2.20:/packages /var/cache/pacman/pkg"
    case Pacstrap(cached, packages) => PacstrapLine(cached, packages)
    case GenFstab => "genfstab -U /mnt >> /mnt/etc/fstab"
    case ShowFstab => "cat /mnt/etc/fstab"
    case LinkResolvConf => "ln -sf /run/systemd/resolve/resolv.conf /mnt/etc/resolv.conf"
    case PermitRootLogin => "sed -i \"s/^#PermitRootLogin .*$/PermitRootLogin yes/\" /mnt/etc/ssh/sshd_config"
    case AddLvmHook => "sed -i.bak \"s/^HOOKS=.*block/& lvm2/\" /mnt/etc/mkinitcpio.conf"
    case MakeRootSshDir => "mkdir /mnt/root/.ssh"
    case ChmodRootSshDir => "chmod 700 /mnt/root/.ssh"
    case MakeSkelDir => "mkdir -p /mnt/etc/skel/.config/nvim"
    case UnmountAll => "umount -R /mnt"
    case ProbeCache => "mount | grep -q \"/var/cache/pacman/pkg\""
    case UnmountCache => "umount /var/cache/pacman/pkg"
    case UserAdd(user) => "useradd --user-group --create-home --shell /usr/bin/fish " + user
    case UserChpasswd(user, password) => "echo " + user + ":" + password + " | chpasswd"
    case MakeUserSshDir(user) => "mkdir -p /home/" + user + "/.ssh"
    case ChmodUserSshDir(user) => "chmod 700 /home/" + user + "/.ssh"
    case ChmodUserKeys(user) => "chmod 600 /home/" + user + "/.ssh/authorized_keys"
    case ChownUserSsh(user) => "chown -R " + user + ":" + user + " /home/" + user + "/.ssh"
    case AddToWheel(user) => "usermod --append --groups wheel " + user
    case InChroot(inner) => Chrooted(ChrootLine(inner))
  }

  /** The local file of an upload. */
  function Local(file: Upload): string {
    match file
    case Mirrorlist(local) => local
    case DhcpNetwork => "dhcp.network"
    case Sudoers => "10-wheel"
    case NvimInit => "init.vim"
    case RootKeys => "authorized_keys"
    case UserKeys(_) => "authorized_keys"
  }

  /** Where an upload goes on the host. */
  function Remote(file: Upload): string {
    match file
    case Mirrorlist(_) => "/etc/pacman.d/mirrorlist"
    case DhcpNetwork => "/mnt/etc/systemd/network/dhcp.network"
    case Sudoers => "/mnt/etc/sudoers.d/"
    case NvimInit => "/mnt/etc/skel/.config/nvim/"
    case RootKeys => "/mnt/root/.ssh/"
    case UserKeys(user) => "/home/" + user + "/.ssh/"
  }

  // ---------------------------------------------------------------- what the text says

  /** `chroot_run` sends the command between the chroot prefix and a closing quote, so the
      command can be read back from the line, and distinct commands give distinct lines. */
  lemma ChrootedWraps(a: string, b: string)
    ensures |ChrootPrefix| < |Chrooted(a)|
    ensures Chrooted(a)[..|ChrootPrefix|] == ChrootPrefix
    ensures Chrooted(a)[|ChrootPrefix|..|Chrooted(a)| - 1] == a
    ensures Chrooted(a)[|Chrooted(a)| - 1] == '\''
    ensures Chrooted(a) == Chrooted(b) <==> a == b
  {
    assert Chrooted(a)[|ChrootPrefix|..|Chrooted(a)| - 1] == a;
    assert Chrooted(b)[|ChrootPrefix|..|Chrooted(b)| - 1] == b;
  }

  /** Python's `' '.join` of a longer list is the shorter join, a space, and the new word. */
  lemma {:induction false} JoinSnoc(words: seq<string>, word: string)
    requires |words| > 0
    ensures Join(words + [word]) == Join(words) + " " + word
    decreases |words|
  {
    if |words| == 1 {
      assert words + [word] == [words[0], word];
    } else {
      assert (words + [word])[1..] == words[1..] + [word];
      JoinSnoc(words[1..], word);
    }
  }

  /** Appending a package to a non-empty list appends a space and its name to either
      pacstrap line. */
  lemma PacstrapSnoc(cached: bool, packages: seq<string>, name: string)
    requires |packages| > 0
    ensures PacstrapLine(cached, packages + [name]) == PacstrapLine(cached, packages) + " " + name
  {
    JoinSnoc(packages, name);
  }

  /** The /etc/hosts entry for the host names it twice, fully qualified and short, and the
      /etc/hostname line holds the name alone. */
  lemma HostnameLines(hostname: string)
    ensures var l := HostnameLine(hostname);
      l[5..5 + |hostname|] == hostname && l[5 + |hostname|..] == " > /etc/hostname"
    ensures var l := HostsSelfLine(hostname); var k := 16 + |hostname|;
      && l[16..k] == hostname && l[k..k + 13] == ".localdomain\t"
      && l[k + 13..k + 13 + |hostname|] == hostname
  {
  }
}
