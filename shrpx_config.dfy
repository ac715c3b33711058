/** The configuration subsystem of the shrpx reverse proxy: textual option
    assignments, given one at a time on the command line or as `name=value`
    lines of a configuration file, are validated and stored into the single
    configuration record the rest of the proxy reads.
 */
module ShrpxConfig {
  import opened CLib

  type uint16 = x: int | 0 <= x < 0x1_0000

  /** struct timeval: whole seconds and microseconds. */
  datatype Timeval = Timeval(sec: int, usec: int)

  /** A user account as getpwnam reports it. */
  datatype Passwd = Passwd(uid: nat, gid: nat)

  /** The collaborators the configuration code calls but does not contain:
      the size of the host buffer parse_config declares (NI_MAXHOST),
      whether the logging module accepts a severity name
      (Log::set_severity_level_by_name), and the system account database
      (getpwnam). */
  datatype Platform = Platform(
    hostBufferLength: nat,
    isSeverityName: string -> bool,
    getpwnam: string -> Option<Passwd>)

  /* ---------------------------------------------------------------------------
   * The configuration record
   * ------------------------------------------------------------------------- */

  /** A host and port pair: the frontend's (`host`, `port`) or the backend's
      (`downstream_host`, `downstream_port`). */
  datatype Binding = Binding(host: Option<string>, port: uint16)

  /** The four yes/no options. */
  datatype Switches = Switches(daemon: bool, spdyProxy: bool, addXForwardedFor: bool, accesslog: bool)

  /** The six timeouts, in the order the record declares them. */
  datatype Timeouts = Timeouts(
    spdyUpstreamRead: Timeval,
    upstreamRead: Timeval,
    upstreamWrite: Timeval,
    downstreamRead: Timeval,
    downstreamWrite: Timeval,
    downstreamIdleRead: Timeval)

  /** The file names the options store. */
  datatype Files = Files(privateKeyFile: Option<string>, certFile: Option<string>, pidFile: Option<string>)

  /** The fields the constructor initialises but no option sets. */
  datatype OtherFields = OtherFields(
    verbose: bool,
    verifyClient: bool,
    serverName: Option<string>,
    downstreamHostport: Option<string>,
    downstreamAddrlen: nat,
    confPath: Option<string>)

  /** A snapshot of every field of the configuration record, grouped. */
  datatype ConfigValue = ConfigValue(
    frontend: Binding,
    backend: Binding,
    numWorker: int,
    spdyMaxConcurrentStreams: int,
    spdyUpstreamWindowBits: nat,
    switches: Switches,
    timeouts: Timeouts,
    files: Files,
    uid: nat,
    gid: nat,
    other: OtherFields)

  /** The values the constructor gives: every flag false, every string unset,
      every number 0. The six timeouts are left uninitialised and are not
      constrained. */
  predicate IsDefault(cv: ConfigValue) {
    cv.frontend == Binding(None, 0) && cv.backend == Binding(None, 0) &&
    cv.numWorker == 0 && cv.spdyMaxConcurrentStreams == 0 && cv.spdyUpstreamWindowBits == 0 &&
    cv.switches == Switches(false, false, false, false) &&
    cv.files == Files(None, None, None) && cv.uid == 0 && cv.gid == 0 &&
    cv.other == OtherFields(false, false, None, None, 0, None)
  }

  /** A host and port pair is either untouched (no host, port 0) or was
      produced by the host:port splitter (a host without a comma, port in
      [1, 65535]). */
  predicate BindingOk(b: Binding) {
    (b.host.None? && b.port == 0) || (b.host.Some? && ',' !in b.host.value && 1 <= b.port)
  }

  /** The record-wide invariant parsing keeps. */
  predicate WellFormed(cv: ConfigValue) {
    BindingOk(cv.frontend) && BindingOk(cv.backend) && cv.spdyUpstreamWindowBits <= 30
  }

  /** The owned string fields of the record. */
  datatype StringField =
    | HostField | PrivateKeyFileField | CertFileField | ServerNameField
    | DownstreamHostField | DownstreamHostportField | PidFileField | ConfPathField

  function StringOf(cv: ConfigValue, f: StringField): Option<string> {
    match f
    case HostField => cv.frontend.host
    case PrivateKeyFileField => cv.files.privateKeyFile
    case CertFileField => cv.files.certFile
    case ServerNameField => cv.other.serverName
    case DownstreamHostField => cv.backend.host
    case DownstreamHostportField => cv.other.downstreamHostport
    case PidFileField => cv.files.pidFile
    case ConfPathField => cv.other.confPath
  }

  /** The record with string field `f` replaced by `v`. */
  function WithString(cv: ConfigValue, f: StringField, v: Option<string>): (r: ConfigValue)
    ensures StringOf(r, f) == v
    ensures r.frontend.port == cv.frontend.port && r.backend.port == cv.backend.port
    ensures r.numWorker == cv.numWorker && r.spdyMaxConcurrentStreams == cv.spdyMaxConcurrentStreams
    ensures r.spdyUpstreamWindowBits == cv.spdyUpstreamWindowBits && r.switches == cv.switches
    ensures r.timeouts == cv.timeouts && r.uid == cv.uid && r.gid == cv.gid
  {
    match f
    case HostField => cv.(frontend := cv.frontend.(host := v))
    case PrivateKeyFileField => cv.(files := cv.files.(privateKeyFile := v))
    case CertFileField => cv.(files := cv.files.(certFile := v))
    case ServerNameField => cv.(other := cv.other.(serverName := v))
    case DownstreamHostField => cv.(backend := cv.backend.(host := v))
    case DownstreamHostportField => cv.(other := cv.other.(downstreamHostport := v))
    case PidFileField => cv.(files := cv.files.(pidFile := v))
    case ConfPathField => cv.(other := cv.other.(confPath := v))
  }

  /** Replacing a string field makes it hold the new value, leaves every other
      string field as it was, and touches nothing else: putting the old value
      back gives the original record. Replacing twice is replacing with the
      second value only. */
  lemma WithStringLaws(cv: ConfigValue, f: StringField, v: Option<string>, w: Option<string>)
    ensures StringOf(WithString(cv, f, v), f) == v
    ensures forall g :: g != f ==> StringOf(WithString(cv, f, v), g) == StringOf(cv, g)
    ensures WithString(WithString(cv, f, v), f, StringOf(cv, f)) == cv
    ensures WithString(WithString(cv, f, v), f, w) == WithString(cv, f, w)
  {
  }

  /* ---------------------------------------------------------------------------
   * split_host_port
   * ------------------------------------------------------------------------- */

  /** What split_host_port makes of a `<host>,<port>` token: no comma, a host
      too long for the buffer, a port outside [1, 65535] (the host has then
      already been copied out), or the pair. */
  datatype SplitOutcome =
    | NoComma
    | HostTooLong
    | InvalidPort(host: string)
    | HostPort(host: string, port: uint16)

  predicate PortInRange(d: Conversion) {
    !d.rangeError && 1 <= d.value <= 65535
  }

  function HostPortOf(hostport: string, hostlen: nat): (r: SplitOutcome)
    ensures r.NoComma? <==> ',' !in hostport
    ensures r.HostTooLong? ==> ',' in hostport && hostlen < FirstIndex(hostport, ',').value + 1
    ensures r.InvalidPort? || r.HostPort? ==>
      |r.host| < |hostport| && hostport[|r.host|] == ',' && ',' !in r.host &&
      r.host == hostport[..|r.host|] && |r.host| + 1 <= hostlen
    ensures r.InvalidPort? ==> !PortInRange(StrToUL(hostport[|r.host| + 1..]))
    ensures r.HostPort? ==> 1 <= r.port && r.port == StrToUL(hostport[|r.host| + 1..]).value
  {
    match FirstIndex(hostport, ',')
    case None => NoComma
    case Some(len) =>
      if hostlen < len + 1 then HostTooLong
      else
        var d := StrToUL(hostport[len + 1..]);
        if PortInRange(d) then HostPort(hostport[..len], d.value)
        else InvalidPort(hostport[..len])
  }

  /** Every token that holds a comma is judged by what precedes its first
      comma and what follows it, and by nothing else. */
  lemma HostPortOfSplit(host: string, tail: string, hostlen: nat)
    requires ',' !in host
    ensures HostPortOf(host + [','] + tail, hostlen) ==
      if hostlen < |host| + 1 then HostTooLong
      else if PortInRange(StrToUL(tail)) then HostPort(host, StrToUL(tail).value)
      else InvalidPort(host)
  {
    var s := host + [','] + tail;
    assert s[..|host|] == host && s[|host|] == ',';
    var k := FirstIndex(s, ',').value;
    assert k == |host|;
    assert s[k + 1..] == tail;
  }

  /** A host without a comma that fits the buffer, joined by a comma to the
      decimal rendering of a port in [1, 65535] (and any text that does not
      start with a digit), splits back into that host and that port. */
  lemma HostPortRoundTrip(host: string, port: uint16, rest: string, hostlen: nat)
    requires ',' !in host && |host| + 1 <= hostlen && 1 <= port
    requires rest == [] || !IsDigit(rest[0])
    ensures HostPortOf(host + [','] + Decimal(port) + rest, hostlen) == HostPort(host, port)
  {
    StrToULOfDecimal(port, rest);
    assert host + [','] + Decimal(port) + rest == host + [','] + (Decimal(port) + rest);
    HostPortOfSplit(host, Decimal(port) + rest, hostlen);
  }

  /** split_host_port: writes the host, NUL-terminated, into the caller's
      buffer `host` (whose length is the buffer length the caller passes) and
      returns the port through the second result; `portIn` is what the port
      variable held before the call, returned unchanged on failure. */
  method SplitHostPort(host: array<char>, portIn: uint16, hostport: string)
    returns (rc: int, port: uint16)
    requires CString(hostport)
    modifies host
    ensures var r := HostPortOf(hostport, host.Length);
      (rc == 0 || rc == -1) && (rc == 0 <==> r.HostPort?) &&
      port == (if r.HostPort? then r.port else portIn) &&
      if r.HostPort? || r.InvalidPort? then
        host[..|r.host| + 1] == r.host + ['\0'] &&
        host[|r.host| + 1..] == old(host[|r.host| + 1..])
      else
        host[..] == old(host[..])
  {
    var p := FirstIndex(hostport, ',');
    if p.None? {
      return -1, portIn;
    }
    var len := p.value;
    if host.Length < len + 1 {
      return -1, portIn;
    }
    var j := 0;
    while j < len
      invariant 0 <= j <= len
      invariant forall k :: 0 <= k < j ==> host[k] == hostport[k]
      invariant forall k :: j <= k < host.Length ==> host[k] == old(host[k])
    {
      host[j] := hostport[j];
      j := j + 1;
    }
    host[len] := '\0';
    assert host[..len + 1] == hostport[..len] + ['\0'];
    assert host[len + 1..] == old(host[len + 1..]);
    var d := StrToUL(hostport[len + 1..]);
    if PortInRange(d) {
      return 0, d.value;
    } else {
      return -1, portIn;
    }
  }

  /** strdup of a buffer into which a C string and its terminator were
      copied gives that string back. */
  lemma {:induction false} CStrOfTerminated(buf: string, s: string)
    requires CString(s) && |s| < |buf| && buf[..|s| + 1] == s + ['\0']
    ensures CStr(buf) == s
  {
    if s != [] {
      assert buf[0] == s[0];
      assert buf[1..][..|s|] == s[1..] + ['\0'];
      CStrOfTerminated(buf[1..], s[1..]);
    } else {
      assert buf[0] == '\0';
    }
  }

  /* ---------------------------------------------------------------------------
   * The option registry
   * ------------------------------------------------------------------------- */

  datatype OptionName =
    | Backend | Frontend | Workers | SpdyMaxConcurrentStreams | LogLevel
    | Daemon | SpdyProxy | AddXForwardedFor | FrontendSpdyReadTimeout
    | FrontendReadTimeout | FrontendWriteTimeout | BackendReadTimeout
    | BackendWriteTimeout | Accesslog | BackendKeepAliveTimeout
    | FrontendSpdyWindowBits | PidFile | User | PrivateKeyFile
    | CertificateFile | Conf

  /** The name each option is written as. */
  function Spelling(o: OptionName): string {
    match o
    case Backend => "backend"
    case Frontend => "frontend"
    case Workers => "workers"
    case SpdyMaxConcurrentStreams => "spdy-max-concurrent-streams"
    case LogLevel => "log-level"
    case Daemon => "daemon"
    case SpdyProxy => "spdy-proxy"
    case AddXForwardedFor => "add-x-forwarded-for"
    case FrontendSpdyReadTimeout => "frontend-spdy-read-timeout"
    case FrontendReadTimeout => "frontend-read-timeout"
    case FrontendWriteTimeout => "frontend-write-timeout"
    case BackendReadTimeout => "backend-read-timeout"
    case BackendWriteTimeout => "backend-write-timeout"
    case Accesslog => "accesslog"
    case BackendKeepAliveTimeout => "backend-keep-alive-timeout"
    case FrontendSpdyWindowBits => "frontend-spdy-window-bits"
    case PidFile => "pid-file"
    case User => "user"
    case PrivateKeyFile => "private-key-file"
    case CertificateFile => "certificate-file"
    case Conf => "conf"
  }

  /** The options in the order parse_config tests them. */
  const Registry: seq<OptionName> := [
    Backend, Frontend, Workers, SpdyMaxConcurrentStreams, LogLevel, Daemon,
    SpdyProxy, AddXForwardedFor, FrontendSpdyReadTimeout, FrontendReadTimeout,
    FrontendWriteTimeout, BackendReadTimeout, BackendWriteTimeout, Accesslog,
    BackendKeepAliveTimeout, FrontendSpdyWindowBits, PidFile, User,
    PrivateKeyFile, CertificateFile, Conf]

  /** The chain of util::strieq tests at the head of parse_config: the first
      option of `options` whose name matches `opt` ignoring case. */
  function FirstMatch(opt: string, options: seq<OptionName>): (r: Option<OptionName>)
    ensures r.Some? ==> r.value in options && StrIEq(opt, Spelling(r.value))
  {
    if options == [] then None
    else if StrIEq(opt, Spelling(options[0])) then Some(options[0])
    else FirstMatch(opt, options[1..])
  }

  /** Option names of equal length differ in their first letter, so the
      length and the first letter pick the option out. */
  function OptionWithKey(len: nat, first: char): Option<OptionName> {
    match (len, first)
    case (7, 'b') => Some(Backend)
    case (8, 'f') => Some(Frontend)
    case (7, 'w') => Some(Workers)
    case (27, 's') => Some(SpdyMaxConcurrentStreams)
    case (9, 'l') => Some(LogLevel)
    case (6, 'd') => Some(Daemon)
    case (10, 's') => Some(SpdyProxy)
    case (19, 'a') => Some(AddXForwardedFor)
    case (26, 'f') => Some(FrontendSpdyReadTimeout)
    case (21, 'f') => Some(FrontendReadTimeout)
    case (22, 'f') => Some(FrontendWriteTimeout)
    case (20, 'b') => Some(BackendReadTimeout)
    case (21, 'b') => Some(BackendWriteTimeout)
    case (9, 'a') => Some(Accesslog)
    case (26, 'b') => Some(BackendKeepAliveTimeout)
    case (25, 'f') => Some(FrontendSpdyWindowBits)
    case (8, 'p') => Some(PidFile)
    case (4, 'u') => Some(User)
    case (16, 'p') => Some(PrivateKeyFile)
    case (16, 'c') => Some(CertificateFile)
    case (4, 'c') => Some(Conf)
    case _ => None
  }

  /** The option `opt` names, looked up by its length and folded first letter
      and then compared in full ignoring case. It agrees with the chain of
      tests in parse_config (ResolveIsFirstMatch). */
  function Resolve(opt: string): (r: Option<OptionName>)
    ensures r.Some? ==> StrIEq(opt, Spelling(r.value))
  {
    if opt == [] then None
    else
      var o := OptionWithKey(|opt|, Lower(opt[0]));
      if o.Some? && StrIEq(opt, Spelling(o.value)) then o else None
  }

  lemma SpellingKey(o: OptionName)
    ensures Spelling(o) != [] && 'a' <= Spelling(o)[0] <= 'z'
    ensures OptionWithKey(|Spelling(o)|, Spelling(o)[0]) == Some(o)
  {
    match o
    case Backend =>
    case Frontend =>
    case Workers =>
    case SpdyMaxConcurrentStreams =>
    case LogLevel =>
    case Daemon =>
    case SpdyProxy =>
    case AddXForwardedFor =>
    case FrontendSpdyReadTimeout =>
    case FrontendReadTimeout =>
    case FrontendWriteTimeout =>
    case BackendReadTimeout =>
    case BackendWriteTimeout =>
    case Accesslog =>
    case BackendKeepAliveTimeout =>
    case FrontendSpdyWindowBits =>
    case PidFile =>
    case User =>
    case PrivateKeyFile =>
    case CertificateFile =>
    case Conf =>
  }

  /** Every option is registered. */
  lemma InRegistry(o: OptionName)
    ensures o in Registry
  {
  }

  /** When no option of `options` is picked, none of them matches. */
  lemma {:induction false} FirstMatchNone(opt: string, options: seq<OptionName>, o: OptionName)
    requires FirstMatch(opt, options).None? && o in options
    ensures !StrIEq(opt, Spelling(o))
  {
    if options[0] != o {
      FirstMatchNone(opt, options[1..], o);
    }
  }

  /** The dispatcher recognises exactly the registered names, in any mix of
      upper and lower case. */
  lemma ResolveMatches(opt: string, o: OptionName)
    ensures Resolve(opt) == Some(o) <==> StrIEq(opt, Spelling(o))
  {
    if StrIEq(opt, Spelling(o)) {
      SpellingKey(o);
      StrIEqAt(opt, Spelling(o), 0);
    }
  }

  /** A name matches no registered option exactly when it is not one of the
      registered names in any case. */
  lemma ResolveUnknown(opt: string)
    ensures Resolve(opt).None? <==> forall o: OptionName :: !StrIEq(opt, Spelling(o))
  {
    forall o: OptionName ensures Resolve(opt).None? ==> !StrIEq(opt, Spelling(o)) {
      ResolveMatches(opt, o);
    }
  }

  /** Looking the name up by its key gives the same answer as testing the
      names one after the other in the order parse_config does. */
  lemma ResolveIsFirstMatch(opt: string)
    ensures Resolve(opt) == FirstMatch(opt, Registry)
  {
    var r := FirstMatch(opt, Registry);
    if r.Some? {
      ResolveMatches(opt, r.value);
    } else if Resolve(opt).Some? {
      InRegistry(Resolve(opt).value);
      FirstMatchNone(opt, Registry, Resolve(opt).value);
    }
  }

  /* ---------------------------------------------------------------------------
   * parse_config
   * ------------------------------------------------------------------------- */

  /** A timeout option's value: strtol seconds and no sub-second part. */
  function Seconds(optarg: string): Timeval {
    Timeval(StrToL(optarg).value, 0)
  }

  /** The timeouts with the one that option `o` sets replaced by `tv`; an
      option that is not a timeout option sets none. */
  function SetTimeout(t: Timeouts, o: OptionName, tv: Timeval): Timeouts {
    match o
    case FrontendSpdyReadTimeout => t.(spdyUpstreamRead := tv)
    case FrontendReadTimeout => t.(upstreamRead := tv)
    case FrontendWriteTimeout => t.(upstreamWrite := tv)
    case BackendReadTimeout => t.(downstreamRead := tv)
    case BackendWriteTimeout => t.(downstreamWrite := tv)
    case BackendKeepAliveTimeout => t.(downstreamIdleRead := tv)
    case _ => t
  }

  /** The yes/no flags with the one that option `o` sets replaced by `b`. */
  function SetSwitch(s: Switches, o: OptionName, b: bool): Switches {
    match o
    case Daemon => s.(daemon := b)
    case SpdyProxy => s.(spdyProxy := b)
    case AddXForwardedFor => s.(addXForwardedFor := b)
    case Accesslog => s.(accesslog := b)
    case _ => s
  }

  /** The file names with the one that option `o` sets replaced by `v`. */
  function SetFile(f: Files, o: OptionName, v: Option<string>): Files {
    match o
    case PidFile => f.(pidFile := v)
    case PrivateKeyFile => f.(privateKeyFile := v)
    case CertificateFile => f.(certFile := v)
    case _ => f
  }

  /** The effect of option `o` with value `optarg` on the record: the new
      record, or None when parse_config returns -1. */
  function ApplyOption(cv: ConfigValue, o: OptionName, optarg: string, env: Platform): (r: Option<ConfigValue>)
    ensures r.None? ==> o == Backend || o == Frontend || o == LogLevel || o == FrontendSpdyWindowBits || o == User
  {
    match o
    case Backend =>
      (match HostPortOf(optarg, env.hostBufferLength)
       case HostPort(h, p) => Some(cv.(backend := Binding(Some(h), p)))
       case _ => None)
    case Frontend =>
      (match HostPortOf(optarg, env.hostBufferLength)
       case HostPort(h, p) => Some(cv.(frontend := Binding(Some(h), p)))
       case _ => None)
    case Workers => Some(cv.(numWorker := StrToL(optarg).value))
    case SpdyMaxConcurrentStreams => Some(cv.(spdyMaxConcurrentStreams := StrToL(optarg).value))
    case LogLevel => if env.isSeverityName(optarg) then Some(cv) else None
    case Daemon | SpdyProxy | AddXForwardedFor | Accesslog =>
      Some(cv.(switches := SetSwitch(cv.switches, o, StrIEq(optarg, "yes"))))
    case FrontendSpdyReadTimeout | FrontendReadTimeout | FrontendWriteTimeout
       | BackendReadTimeout | BackendWriteTimeout | BackendKeepAliveTimeout =>
      Some(cv.(timeouts := SetTimeout(cv.timeouts, o, Seconds(optarg))))
    case FrontendSpdyWindowBits =>
      var n := StrToUL(optarg);
      if !n.rangeError && n.value < 31 then Some(cv.(spdyUpstreamWindowBits := n.value)) else None
    case PidFile | PrivateKeyFile | CertificateFile =>
      Some(cv.(files := SetFile(cv.files, o, Some(optarg))))
    case User =>
      (match env.getpwnam(optarg)
       case None => None
       case Some(pw) => Some(cv.(uid := pw.uid, gid := pw.gid)))
    case Conf => Some(cv)
  }

  /** parse_config(opt, optarg) on record `cv`: Some(new record) when it
      returns 0, None when it returns -1 (the record is then untouched). */
  function ParseOption(cv: ConfigValue, opt: string, optarg: string, env: Platform): (r: Option<ConfigValue>)
    ensures r.Some? ==> exists o :: StrIEq(opt, Spelling(o)) && ApplyOption(cv, o, optarg, env) == r
  {
    match Resolve(opt)
    case None => None
    case Some(o) => ApplyOption(cv, o, optarg, env)
  }

  /** A parse_config-style result: 0 with the new record in place, or -1
      with the record untouched. */
  predicate Reports(rc: int, before: ConfigValue, after: ConfigValue, r: Option<ConfigValue>) {
    (rc == 0 <==> r.Some?) && (rc == 0 || rc == -1) && after == (if r.Some? then r.value else before)
  }

  /** Each option writes only its own fields: every field and group of the
      record is left alone by every other option, a switch, timeout or file
      option changes only its own member of its group, and the fields no
      option sets are never touched. */
  lemma ApplyOptionFrame(cv: ConfigValue, o: OptionName, optarg: string, env: Platform)
    requires ApplyOption(cv, o, optarg, env).Some?
    ensures var n := ApplyOption(cv, o, optarg, env).value;
      (o != Frontend ==> n.frontend == cv.frontend) &&
      (o != Backend ==> n.backend == cv.backend) &&
      (o != FrontendSpdyWindowBits ==> n.spdyUpstreamWindowBits == cv.spdyUpstreamWindowBits) &&
      (o != Workers ==> n.numWorker == cv.numWorker) &&
      (o != SpdyMaxConcurrentStreams ==> n.spdyMaxConcurrentStreams == cv.spdyMaxConcurrentStreams) &&
      (o != User ==> n.uid == cv.uid && n.gid == cv.gid) &&
      n.switches == SetSwitch(cv.switches, o, StrIEq(optarg, "yes")) &&
      n.timeouts == SetTimeout(cv.timeouts, o, Seconds(optarg)) &&
      n.files == SetFile(cv.files, o, Some(optarg)) &&
      n.other == cv.other
  {
  }

  /** frontend-spdy-window-bits stores a value below 31 and rejects anything
      else (including a range error), leaving the field as it was. */
  lemma WindowBitsOption(cv: ConfigValue, opt: string, optarg: string, env: Platform)
    requires StrIEq(opt, Spelling(FrontendSpdyWindowBits))
    ensures var n := StrToUL(optarg);
      ParseOption(cv, opt, optarg, env).Some? <==> !n.rangeError && n.value <= 30
    ensures ParseOption(cv, opt, optarg, env).Some? ==>
      ParseOption(cv, opt, optarg, env).value == cv.(spdyUpstreamWindowBits := StrToUL(optarg).value)
  {
    ResolveMatches(opt, FrontendSpdyWindowBits);
  }

  /** A window-bits value written in decimal is stored when it is at most 30
      and rejected otherwise, a value beyond ULONG_MAX by the range error. */
  lemma WindowBitsDecimal(cv: ConfigValue, opt: string, n: nat, env: Platform)
    requires StrIEq(opt, Spelling(FrontendSpdyWindowBits))
    ensures ParseOption(cv, opt, Decimal(n), env) ==
      if n <= 30 then Some(cv.(spdyUpstreamWindowBits := n)) else None
  {
    assert Decimal(n) + [] == Decimal(n);
    ReadOfDigits(Decimal(n), []);
    DigitsValueOfDecimal(n);
    WindowBitsOption(cv, opt, Decimal(n), env);
  }

  /** The boolean options never fail: the flag becomes true exactly when the
      value is "yes" in any case, and nothing else changes. */
  lemma BooleanOptions(cv: ConfigValue, opt: string, optarg: string, env: Platform)
    ensures var yes := StrIEq(optarg, "yes");
      StrIEq(opt, Spelling(Daemon)) ==>
        ParseOption(cv, opt, optarg, env) == Some(cv.(switches := cv.switches.(daemon := yes)))
    ensures var yes := StrIEq(optarg, "yes");
      StrIEq(opt, Spelling(SpdyProxy)) ==>
        ParseOption(cv, opt, optarg, env) == Some(cv.(switches := cv.switches.(spdyProxy := yes)))
    ensures var yes := StrIEq(optarg, "yes");
      StrIEq(opt, Spelling(AddXForwardedFor)) ==>
        ParseOption(cv, opt, optarg, env) == Some(cv.(switches := cv.switches.(addXForwardedFor := yes)))
    ensures var yes := StrIEq(optarg, "yes");
      StrIEq(opt, Spelling(Accesslog)) ==>
        ParseOption(cv, opt, optarg, env) == Some(cv.(switches := cv.switches.(accesslog := yes)))
  {
    ResolveMatches(opt, Daemon);
    ResolveMatches(opt, SpdyProxy);
    ResolveMatches(opt, AddXForwardedFor);
    ResolveMatches(opt, Accesslog);
  }

  /** backend and frontend: a token the splitter rejects fails and changes
      nothing; an accepted one sets that group's host and port, and nothing
      else. */
  lemma BindingOptions(cv: ConfigValue, opt: string, optarg: string, env: Platform)
    ensures var r := HostPortOf(optarg, env.hostBufferLength);
      StrIEq(opt, Spelling(Backend)) ==>
        ParseOption(cv, opt, optarg, env) ==
          if r.HostPort? then Some(cv.(backend := Binding(Some(r.host), r.port))) else None
    ensures var r := HostPortOf(optarg, env.hostBufferLength);
      StrIEq(opt, Spelling(Frontend)) ==>
        ParseOption(cv, opt, optarg, env) ==
          if r.HostPort? then Some(cv.(frontend := Binding(Some(r.host), r.port))) else None
  {
    ResolveMatches(opt, Backend);
    ResolveMatches(opt, Frontend);
  }

  /** An unknown name fails; conf is accepted and ignored. */
  lemma UnknownAndConf(cv: ConfigValue, opt: string, optarg: string, env: Platform)
    ensures (forall o: OptionName :: !StrIEq(opt, Spelling(o))) ==> ParseOption(cv, opt, optarg, env).None?
    ensures StrIEq(opt, Spelling(Conf)) ==> ParseOption(cv, opt, optarg, env) == Some(cv)
  {
    ResolveUnknown(opt);
    ResolveMatches(opt, Conf);
  }

  /** The file options never fail: the value given replaces that option's
      own file name, whatever it held, and nothing else changes. */
  lemma FileOptions(cv: ConfigValue, opt: string, optarg: string, env: Platform, o: OptionName)
    requires o == PidFile || o == PrivateKeyFile || o == CertificateFile
    requires StrIEq(opt, Spelling(o))
    ensures ParseOption(cv, opt, optarg, env) == Some(cv.(files := SetFile(cv.files, o, Some(optarg))))
  {
    ResolveMatches(opt, o);
  }

  /** Giving a file option twice leaves only the second value. */
  lemma FileOptionTwice(cv: ConfigValue, opt: string, a: string, b: string, env: Platform)
    requires StrIEq(opt, Spelling(PidFile))
    ensures ParseOption(cv, opt, a, env).Some?
    ensures ParseOption(ParseOption(cv, opt, a, env).value, opt, b, env) == ParseOption(cv, opt, b, env)
  {
    ResolveMatches(opt, PidFile);
  }

  /** A successful parse keeps the record well formed. */
  lemma ParseOptionKeepsWellFormed(cv: ConfigValue, opt: string, optarg: string, env: Platform)
    requires WellFormed(cv)
    ensures ParseOption(cv, opt, optarg, env).Some? ==> WellFormed(ParseOption(cv, opt, optarg, env).value)
  {
    if Resolve(opt).Some? && ParseOption(cv, opt, optarg, env).Some? {
      var o := Resolve(opt).value;
      ApplyOptionFrame(cv, o, optarg, env);
      if o == Backend || o == Frontend {
        var r := HostPortOf(optarg, env.hostBufferLength);
        assert r.HostPort?;
        assert ',' !in r.host && 1 <= r.port;
      }
    }
  }

  /* ---------------------------------------------------------------------------
   * load_config
   * ------------------------------------------------------------------------- */

  /** How load_config treats one line: skipped (empty or starting with '#'),
      malformed (no '='), or a name and value split at the first '='. The
      '=' is overwritten with a NUL in place, so both halves are seen as C
      strings, up to any NUL the line holds. */
  datatype LineKind = Skipped | Malformed | Assignment(name: string, value: string)

  function ClassifyLine(line: string): (k: LineKind)
    ensures k.Skipped? <==> line == [] || line[0] == '#'
    ensures k.Malformed? <==> line != [] && line[0] != '#' && '=' !in line
    ensures k.Assignment? ==>
      exists i :: 0 <= i < |line| && line[i] == '=' && '=' !in line[..i] &&
                  k.name == CStr(line[..i]) && k.value == CStr(line[i + 1..])
  {
    if line == [] || line[0] == '#' then Skipped
    else match FirstIndex(line, '=')
      case None => Malformed
      case Some(i) => Assignment(CStr(line[..i]), CStr(line[i + 1..]))
  }

  /** The option handler load_config feeds each assignment to: the new
      record, or None when it rejects the assignment. */
  type Parser = (ConfigValue, string, string) -> Option<ConfigValue>

  /** parse_config as a handler. */
  function OptionParser(env: Platform): Parser {
    (cv: ConfigValue, opt: string, optarg: string) => ParseOption(cv, opt, optarg, env)
  }

  /** The lines of a file, each classified. */
  function Classify(lines: seq<string>): seq<LineKind> {
    seq(|lines|, i requires 0 <= i < |lines| => ClassifyLine(lines[i]))
  }

  /** The outcome of load_config: its result, the value its line counter has
      when it returns, and the record it leaves. */
  datatype LoadResult = LoadResult(rc: int, linenum: nat, config: ConfigValue)

  /** load_config over the classified lines `kinds`, the counter standing at
      `linenum` before the first of them, each assignment going to `parse`.
      On failure the counter names the line that failed (LoadFailure). */
  function LoadLines(cv: ConfigValue, kinds: seq<LineKind>, linenum: nat, parse: Parser): (r: LoadResult)
    ensures r.rc == 0 || r.rc == -1
    ensures r.rc == 0 ==> r.linenum == linenum + |kinds|
    ensures r.rc == -1 ==> linenum < r.linenum <= linenum + |kinds|
    decreases |kinds|
  {
    if kinds == [] then LoadResult(0, linenum, cv)
    else match kinds[0]
      case Skipped => LoadLines(cv, kinds[1..], linenum + 1, parse)
      case Malformed => LoadResult(-1, linenum + 1, cv)
      case Assignment(name, value) =>
        match parse(cv, name, value)
        case None => LoadResult(-1, linenum + 1, cv)
        case Some(cv') => LoadLines(cv', kinds[1..], linenum + 1, parse)
  }

  /** A file of blank and comment lines loads, leaves the record as it was,
      and still counts every line. */
  lemma {:induction false} LoadSkippedOnly(cv: ConfigValue, kinds: seq<LineKind>, linenum: nat, parse: Parser)
    requires forall i :: 0 <= i < |kinds| ==> kinds[i].Skipped?
    ensures LoadLines(cv, kinds, linenum, parse) == LoadResult(0, linenum + |kinds|, cv)
    decreases |kinds|
  {
    if kinds != [] {
      LoadSkippedOnly(cv, kinds[1..], linenum + 1, parse);
    }
  }

  /** Once a line fails, nothing after it is read. */
  lemma {:induction false} LoadStopsAtFailure(cv: ConfigValue, pre: seq<LineKind>, rest: seq<LineKind>, linenum: nat, parse: Parser)
    requires LoadLines(cv, pre, linenum, parse).rc == -1
    ensures LoadLines(cv, pre + rest, linenum, parse) == LoadLines(cv, pre, linenum, parse)
    decreases |pre|
  {
    assert (pre + rest)[0] == pre[0];
    assert (pre + rest)[1..] == pre[1..] + rest;
    match pre[0]
    case Skipped =>
      LoadStopsAtFailure(cv, pre[1..], rest, linenum + 1, parse);
    case Malformed =>
    case Assignment(name, value) =>
      if parse(cv, name, value).Some? {
        LoadStopsAtFailure(parse(cv, name, value).value, pre[1..], rest, linenum + 1, parse);
      }
  }

  /** Lines that all load carry their effects into the lines after them. */
  lemma {:induction false} LoadSequential(cv: ConfigValue, pre: seq<LineKind>, rest: seq<LineKind>, linenum: nat, parse: Parser)
    requires LoadLines(cv, pre, linenum, parse).rc == 0
    ensures LoadLines(cv, pre + rest, linenum, parse) ==
      LoadLines(LoadLines(cv, pre, linenum, parse).config, rest, linenum + |pre|, parse)
    decreases |pre|
  {
    if pre == [] {
      assert pre + rest == rest;
    } else {
      assert (pre + rest)[0] == pre[0];
      assert (pre + rest)[1..] == pre[1..] + rest;
      match pre[0]
      case Skipped =>
        LoadSequential(cv, pre[1..], rest, linenum + 1, parse);
      case Assignment(name, value) =>
        LoadSequential(parse(cv, name, value).value, pre[1..], rest, linenum + 1, parse);
    }
  }

  /** A load that fails stops at a line that is malformed or that the
      handler rejects, in the state the lines before it left; those lines
      all loaded, and their effects are kept. */
  lemma {:induction false} LoadFailure(cv: ConfigValue, kinds: seq<LineKind>, linenum: nat, parse: Parser)
    requires LoadLines(cv, kinds, linenum, parse).rc == -1
    ensures var r := LoadLines(cv, kinds, linenum, parse);
      var k := r.linenum - linenum - 1;
      0 <= k < |kinds| &&
      LoadLines(cv, kinds[..k], linenum, parse) == LoadResult(0, r.linenum - 1, r.config) &&
      (kinds[k].Malformed? || (kinds[k].Assignment? && parse(r.config, kinds[k].name, kinds[k].value).None?))
    decreases |kinds|
  {
    var r := LoadLines(cv, kinds, linenum, parse);
    match kinds[0]
    case Skipped =>
      LoadFailure(cv, kinds[1..], linenum + 1, parse);
      var k := r.linenum - linenum - 1;
      assert kinds[..k][1..] == kinds[1..][..k - 1];
    case Malformed =>
      assert kinds[..0] == [];
    case Assignment(name, value) =>
      assert kinds[..0] == [];
      if parse(cv, name, value).Some? {
        LoadFailure(parse(cv, name, value).value, kinds[1..], linenum + 1, parse);
        var k := r.linenum - linenum - 1;
        assert kinds[..k][1..] == kinds[1..][..k - 1];
      }
  }

  /** A line without '=' after lines that all loaded fails the load, reports
      its own 1-based number, and keeps what the earlier lines set. */
  lemma LoadMalformedLine(cv: ConfigValue, kinds: seq<LineKind>, k: nat, parse: Parser)
    requires k < |kinds| && kinds[k].Malformed?
    requires LoadLines(cv, kinds[..k], 0, parse).rc == 0
    ensures LoadLines(cv, kinds, 0, parse) == LoadResult(-1, k + 1, LoadLines(cv, kinds[..k], 0, parse).config)
  {
    assert kinds == kinds[..k] + kinds[k..];
    LoadSequential(cv, kinds[..k], kinds[k..], 0, parse);
    assert kinds[k..][0] == kinds[k];
  }

  /** A handler that never turns a well-formed record into a malformed one. */
  ghost predicate KeepsWellFormed(parse: Parser) {
    forall cv, opt, optarg :: WellFormed(cv) && parse(cv, opt, optarg).Some? ==>
      WellFormed(parse(cv, opt, optarg).value)
  }

  lemma OptionParserKeepsWellFormed(env: Platform)
    ensures KeepsWellFormed(OptionParser(env))
  {
    forall cv, opt, optarg | WellFormed(cv) && OptionParser(env)(cv, opt, optarg).Some?
      ensures WellFormed(OptionParser(env)(cv, opt, optarg).value)
    {
      ParseOptionKeepsWellFormed(cv, opt, optarg, env);
    }
  }

  /** Loading keeps the record well formed, whether it succeeds or stops. */
  lemma {:induction false} LoadKeepsWellFormed(cv: ConfigValue, kinds: seq<LineKind>, linenum: nat, parse: Parser)
    requires WellFormed(cv) && KeepsWellFormed(parse)
    ensures WellFormed(LoadLines(cv, kinds, linenum, parse).config)
    decreases |kinds|
  {
    if kinds != [] {
      match kinds[0]
      case Skipped =>
        LoadKeepsWellFormed(cv, kinds[1..], linenum + 1, parse);
      case Malformed =>
      case Assignment(name, value) =>
        if parse(cv, name, value).Some? {
          LoadKeepsWellFormed(parse(cv, name, value).value, kinds[1..], linenum + 1, parse);
        }
    }
  }

  /* ---------------------------------------------------------------------------
   * The record as an object, and the operations that update it in place
   * ------------------------------------------------------------------------- */

  /** The process-wide configuration record. create_config is the
      constructor; get_config and mod_config are a reference to the object. */
  class Config {
    var frontend: Binding
    var backend: Binding
    var numWorker: int
    var spdyMaxConcurrentStreams: int
    var spdyUpstreamWindowBits: nat
    var switches: Switches
    var timeouts: Timeouts
    var files: Files
    var uid: nat
    var gid: nat
    var other: OtherFields

    function Value(): ConfigValue
      reads this
    {
      ConfigValue(frontend, backend, numWorker, spdyMaxConcurrentStreams, spdyUpstreamWindowBits,
        switches, timeouts, files, uid, gid, other)
    }

    /** Config::Config: the timeouts are not initialised. */
    constructor ()
      ensures IsDefault(Value()) && WellFormed(Value())
    {
      frontend, backend := Binding(None, 0), Binding(None, 0);
      numWorker, spdyMaxConcurrentStreams, spdyUpstreamWindowBits := 0, 0, 0;
      switches := Switches(false, false, false, false);
      files := Files(None, None, None);
      uid, gid := 0, 0;
      other := OtherFields(false, false, None, None, 0, None);
    }

    /** set_config_str: the field takes a copy of `val`, whatever it held. */
    method SetConfigStr(f: StringField, val: string)
      requires CString(val)
      modifies this
      ensures Value() == WithString(old(Value()), f, Some(val))
    {
      ghost var v0 := Value();
      match f
      case HostField => frontend := frontend.(host := Some(val));
      case PrivateKeyFileField => files := files.(privateKeyFile := Some(val));
      case CertFileField => files := files.(certFile := Some(val));
      case ServerNameField => other := other.(serverName := Some(val));
      case DownstreamHostField => backend := backend.(host := Some(val));
      case DownstreamHostportField => other := other.(downstreamHostport := Some(val));
      case PidFileField => files := files.(pidFile := Some(val));
      case ConfPathField => other := other.(confPath := Some(val));
      assert Value() == WithString(v0, f, Some(val));
    }

    /** Runs the host:port splitter on `optarg` with a fresh buffer of the
        platform's size and, on success, stores the host through
        set_config_str into `f` and returns the port. */
    method SplitInto(f: StringField, optarg: string, env: Platform) returns (rc: int, port': uint16)
      requires CString(optarg)
      modifies this
      ensures var r := HostPortOf(optarg, env.hostBufferLength);
        (rc == 0 <==> r.HostPort?) && (rc == 0 || rc == -1) &&
        if r.HostPort? then Value() == WithString(old(Value()), f, Some(r.host)) && port' == r.port
        else Value() == old(Value())
    {
      var buf := new char[env.hostBufferLength];
      rc, port' := SplitHostPort(buf, 0, optarg);
      if rc == 0 {
        ghost var r := HostPortOf(optarg, env.hostBufferLength);
        assert CString(r.host) by {
          assert r.host == optarg[..|r.host|];
        }
        CStrOfTerminated(buf[..], r.host);
        SetConfigStr(f, CStr(buf[..]));
      }
    }

    /** parse_config: applies one option to the record. */
    method ParseConfig(opt: string, optarg: string, env: Platform) returns (rc: int)
      requires CString(opt) && CString(optarg)
      modifies this
      ensures Reports(rc, old(Value()), Value(), ParseOption(old(Value()), opt, optarg, env))
    {
      match Resolve(opt)
      case None =>
        rc := -1;
      case Some(o) =>
        rc := Apply(o, optarg, env);
    }

    /** The branch of parse_config that handles option `o`. */
    method Apply(o: OptionName, optarg: string, env: Platform) returns (rc: int)
      requires CString(optarg)
      modifies this
      ensures Reports(rc, old(Value()), Value(), ApplyOption(old(Value()), o, optarg, env))
    {
      rc := 0;
      match o
      case Backend | Frontend =>
        rc := ApplyHostPort(o, optarg, env);
      case Workers =>
        numWorker := StrToL(optarg).value;
      case SpdyMaxConcurrentStreams =>
        spdyMaxConcurrentStreams := StrToL(optarg).value;
      case LogLevel =>
        if !env.isSeverityName(optarg) { rc := -1; }
      case Daemon | SpdyProxy | AddXForwardedFor | Accesslog =>
        ApplySwitch(o, StrIEq(optarg, "yes"));
      case FrontendSpdyReadTimeout | FrontendReadTimeout | FrontendWriteTimeout
         | BackendReadTimeout | BackendWriteTimeout | BackendKeepAliveTimeout =>
        ApplyTimeout(o, Timeval(StrToL(optarg).value, 0));
      case FrontendSpdyWindowBits =>
        var n := StrToUL(optarg);
        if !n.rangeError && n.value < 31 {
          spdyUpstreamWindowBits := n.value;
        } else {
          rc := -1;
        }
      case PidFile | PrivateKeyFile | CertificateFile =>
        ApplyFile(o, optarg);
      case User =>
        var pwd := env.getpwnam(optarg);
        if pwd.None? {
          rc := -1;
        } else {
          uid := pwd.value.uid;
          gid := pwd.value.gid;
        }
      case Conf =>
    }

    /** backend and frontend: split the token into a buffer, then store the
        host through set_config_str and the port. */
    method ApplyHostPort(o: OptionName, optarg: string, env: Platform) returns (rc: int)
      requires o == Backend || o == Frontend
      requires CString(optarg)
      modifies this
      ensures var r := HostPortOf(optarg, env.hostBufferLength);
        (rc == 0 <==> r.HostPort?) && (rc == 0 || rc == -1) &&
        Value() == if !r.HostPort? then old(Value())
                   else if o == Backend then old(Value()).(backend := Binding(Some(r.host), r.port))
                   else old(Value()).(frontend := Binding(Some(r.host), r.port))
    {
      var p;
      if o == Backend {
        rc, p := SplitInto(DownstreamHostField, optarg, env);
        if rc == 0 { backend := backend.(port := p); }
      } else {
        rc, p := SplitInto(HostField, optarg, env);
        if rc == 0 { frontend := frontend.(port := p); }
      }
    }

    /** The yes/no options: the flag of option `o` becomes `yes`. */
    method ApplySwitch(o: OptionName, yes: bool)
      modifies this
      ensures Value() == old(Value()).(switches := SetSwitch(old(Value()).switches, o, yes))
    {
      match o
      case Daemon => switches := switches.(daemon := yes);
      case SpdyProxy => switches := switches.(spdyProxy := yes);
      case AddXForwardedFor => switches := switches.(addXForwardedFor := yes);
      case Accesslog => switches := switches.(accesslog := yes);
      case _ =>
    }

    /** The timeout options: the timeout of option `o` becomes `tv`. */
    method ApplyTimeout(o: OptionName, tv: Timeval)
      modifies this
      ensures Value() == old(Value()).(timeouts := SetTimeout(old(Value()).timeouts, o, tv))
    {
      match o
      case FrontendSpdyReadTimeout => timeouts := timeouts.(spdyUpstreamRead := tv);
      case FrontendReadTimeout => timeouts := timeouts.(upstreamRead := tv);
      case FrontendWriteTimeout => timeouts := timeouts.(upstreamWrite := tv);
      case BackendReadTimeout => timeouts := timeouts.(downstreamRead := tv);
      case BackendWriteTimeout => timeouts := timeouts.(downstreamWrite := tv);
      case BackendKeepAliveTimeout => timeouts := timeouts.(downstreamIdleRead := tv);
      case _ =>
    }

    /** The file options: a copy of the value goes through set_config_str
        into the file name of option `o`. */
    method ApplyFile(o: OptionName, val: string)
      requires CString(val)
      modifies this
      ensures Value() == old(Value()).(files := SetFile(old(Value()).files, o, Some(val)))
    {
      match o
      case PidFile => SetConfigStr(PidFileField, val);
      case PrivateKeyFile => SetConfigStr(PrivateKeyFileField, val);
      case CertificateFile => SetConfigStr(CertFileField, val);
      case _ =>
    }

    /** load_config over the lines of an already-read file. */
    method LoadConfig(lines: seq<string>, env: Platform) returns (rc: int, linenum: nat)
      modifies this
      ensures var r := LoadLines(old(Value()), Classify(lines), 0, OptionParser(env));
        rc == r.rc && linenum == r.linenum && Value() == r.config
    {
      ghost var kinds := Classify(lines);
      linenum := 0;
      while linenum < |lines|
        invariant linenum <= |lines|
        invariant LoadLines(old(Value()), kinds, 0, OptionParser(env)) ==
          LoadLines(Value(), kinds[linenum..], linenum, OptionParser(env))
      {
        var line := lines[linenum];
        assert kinds[linenum..][0] == ClassifyLine(line);
        assert kinds[linenum..][1..] == kinds[linenum + 1..];
        linenum := linenum + 1;
        if line == [] || line[0] == '#' {
          continue;
        }
        var i := FindSeparator(line);
        if i == |line| {
          return -1, linenum;
        }
        assert FirstIndex(line, '=') == Some(i);
        assert OptionParser(env)(Value(), CStr(line[..i]), CStr(line[i + 1..])) ==
          ParseOption(Value(), CStr(line[..i]), CStr(line[i + 1..]), env);
        var r := ParseConfig(CStr(line[..i]), CStr(line[i + 1..]), env);
        if r == -1 {
          return -1, linenum;
        }
      }
      rc := 0;
    }
  }

  /** The scan for the first '=' of a line. */
  method FindSeparator(line: string) returns (i: nat)
    ensures i <= |line| && '=' !in line[..i]
    ensures i < |line| ==> line[i] == '='
    ensures i == |line| <==> '=' !in line
  {
    i := 0;
    while i < |line| && line[i] != '='
      invariant i <= |line| && '=' !in line[..i]
    {
      assert line[..i + 1] == line[..i] + [line[i]];
      i := i + 1;
    }
  }
}
