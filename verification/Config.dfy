/** The settings of one connect attempt, their defaults, and the bounds checked before it. */
module Config {
  import opened Snapshots
  import opened Panic

  const IPV6_KEY := "net.ipv6.conf.all.disable_ipv6"

  datatype Settings = Settings(
    tunName: string,
    tunIP: string,
    tunGateway: string,
    routingTableId: int,
    rulePriority: int,
    dnsServerIP: string,
    transportURL: string,
    resolvPath: string,
    stateDir: string)

  datatype Verdict =
    | Accepted
    | BadTunLength
    | ReservedTunName
    | BadTable
    | BadPriority
    | NoTransport

  function OrText(value: string, default: string): string {
    if value == "" then default else value
  }

  function OrNumber(value: int, default: int): int {
    if value == 0 then default else value
  }

  /** Zero values are filled in; everything else is kept. */
  function ApplyDefaults(c: Settings): Settings {
    Settings(
      OrText(c.tunName, "ouftun0"),
      OrText(c.tunIP, "10.233.233.1"),
      OrText(c.tunGateway, "10.233.233.2/32"),
      OrNumber(c.routingTableId, 233),
      OrNumber(c.rulePriority, 23333),
      OrText(c.dnsServerIP, "9.9.9.9"),
      c.transportURL,
      OrText(c.resolvPath, "/etc/resolv.conf"),
      OrText(c.stateDir, "/var/lib/outline-fedora"))
  }

  function Validate(c: Settings): Verdict {
    if |c.tunName| == 0 || |c.tunName| > 15 then BadTunLength
    else if c.tunName == "lo" then ReservedTunName
    else if c.routingTableId <= 0 then BadTable
    else if 253 <= c.routingTableId <= 255 then BadTable
    else if c.rulePriority < 1000 then BadPriority
    else if c.transportURL == "" then NoTransport
    else Accepted
  }

  function Marks(c: Settings): OurMarks {
    OurMarks(c.tunName, c.routingTableId, c.rulePriority)
  }

  function BackupPath(c: Settings): string {
    c.stateDir + "/backup/resolv.conf"
  }

  function SnapshotPath(c: Settings): string {
    c.stateDir + "/snapshot.json"
  }

  /** The content written over resolv.conf. */
  function ManagedContent(c: Settings): string {
    "# outline-fedora: managed while VPN is active\nnameserver " + c.dnsServerIP + "\n"
  }

  /** What the daemon passes for a key: everything but the URL and the two paths is defaulted. */
  function DaemonSettings(url: string, stateDir: string, resolvPath: string): Settings {
    ApplyDefaults(Settings("", "", "", 0, 0, "", url, resolvPath, stateDir))
  }

  /** The eight priorities in use are base-7 .. base. */
  const BYPASS_COUNT := 7

  function Window(base: int): set<int> {
    {base, base - 1, base - 2, base - 3, base - 4, base - 5, base - 6, base - BYPASS_COUNT}
  }

  predicate InWindow(base: int, p: int) {
    p in Window(base)
  }

  lemma BaseInWindow(base: int)
    ensures base in Window(base)
  {
  }

  /** What the revert really needs of the marks; tighter than Validate. */
  predicate Revertible(m: OurMarks) {
    && !ReservedName(m.tunIfname)
    && !ReservedTable(m.tableId)
    && m.rulePriority >= 1000 + BYPASS_COUNT
  }

  /** The bounds: a name of 1 to 15 characters other than lo, a table that is ours to take, a priority from 1000 up, a URL. */
  lemma AcceptedExactly(c: Settings)
    ensures Validate(c) == Accepted <==>
              && 1 <= |c.tunName| <= 15 && c.tunName != "lo"
              && (1 <= c.routingTableId <= 252 || c.routingTableId >= 256)
              && c.rulePriority >= 1000
              && |c.transportURL| > 0
  {
  }

  /** The daemon's check and the script's guards agree except on interface names. */
  lemma ValidateVersusGuards(c: Settings, s: Snapshot)
    requires Validate(c) == Accepted
    requires s.version == VERSION && s.marks == Marks(c)
    ensures GuardsPass(s) <==> !ReservedName(c.tunName)
    ensures Revertible(s.marks) <==> !ReservedName(c.tunName) && c.rulePriority >= 1007
  {
    assert !ReservedTable(c.routingTableId);
  }

  lemma OtherFirstLetter(name: string, prefix: string)
    requires |name| > 0 && |prefix| > 0 && name[0] != prefix[0]
    ensures !HasPrefix(name, prefix)
  {
  }

  lemma DefaultNameAllowed()
    ensures !ReservedName("ouftun0")
  {
    var name := "ouftun0";
    assert name[0] == 'o';
    OtherFirstLetter(name, "eth");
    OtherFirstLetter(name, "en");
    OtherFirstLetter(name, "wl");
    OtherFirstLetter(name, "virbr");
    OtherFirstLetter(name, "docker");
    OtherFirstLetter(name, "br-");
    OtherFirstLetter(name, "veth");
    assert |name| == 7;
  }

  /** The daemon's settings: its two paths, the URL, and defaults for the rest. */
  lemma DaemonSettingsExactly(url: string, stateDir: string, resolvPath: string)
    ensures DaemonSettings(url, stateDir, resolvPath) == Settings(
              "ouftun0", "10.233.233.1", "10.233.233.2/32", 233, 23333, "9.9.9.9", url,
              if |resolvPath| > 0 then resolvPath else "/etc/resolv.conf",
              if |stateDir| > 0 then stateDir else "/var/lib/outline-fedora")
  {
  }

  /** Whatever the key, the daemon's own settings are accepted and can be reverted. */
  lemma DaemonSettingsRevertible(url: string, stateDir: string, resolvPath: string)
    requires url != ""
    ensures Validate(DaemonSettings(url, stateDir, resolvPath)) == Accepted
    ensures Revertible(Marks(DaemonSettings(url, stateDir, resolvPath)))
  {
    DefaultNameAllowed();
    assert Marks(DaemonSettings(url, stateDir, resolvPath)) == OurMarks("ouftun0", 233, 23333);
  }
}
