/**
 The interactive console: the DNS server and the proxy are two settings that
 the commands typed at the prompt replace in place. A line is trimmed and
 split on single spaces; its first word picks the action:
   `server X`  replaces the server (defaulting its port to 53),
   `proxy X`   replaces the proxy (defaulting its port to 7890),
   `exit`      leaves the loop,
   anything else is a domain to look up with the current settings.
 `server` or `proxy` without a second word indexes past the end of the word
 list, and the program panics.
 */
module Console {
  import opened Text
  import opened Endpoint
  import opened Dns
  import opened Exchange

  /** The two settings every lookup is made with. */
  datatype Settings = Settings(server: string, proxy: string)

  datatype Command =
    | SetServer(addr: string)
    | SetProxy(addr: string)
    | Quit
    | Lookup(domain: string)
    | MissingArgument(verb: string)

  /** What one read from standard input gives: a line, or a read error. */
  datatype ReadOutcome = Line(text: string) | ReadError

  /** Why the loop stopped: `exit`, a panic on a missing argument, or no more input. */
  datatype Stop = Exited | Panicked(verb: string) | InputEnded

  /** A lookup the console issued, with the settings it was issued under. */
  datatype Request = Request(domain: string, settings: Settings)

  datatype SessionResult = SessionResult(final: Settings, stop: Stop, issued: seq<Request>)

  /** The settings after the startup defaulting of the command-line flags. */
  function Startup(serverFlag: string, proxyFlag: string): (s: Settings)
    ensures HasPort(s.server) && serverFlag <= s.server
    ensures s.proxy == "" <==> proxyFlag == ""
    ensures s.proxy != "" ==> HasPort(s.proxy) && proxyFlag <= s.proxy
    ensures s.server == Normalize(serverFlag, DnsPort)
    ensures proxyFlag != "" ==> s.proxy == Normalize(proxyFlag, ProxyPort)
  {
    Settings(Normalize(serverFlag, DnsPort), StartupProxy(proxyFlag))
  }

  /** The words of a line: trimmed, then split on every single space. */
  function Words(line: string): (w: seq<string>)
    ensures |w| >= 1
    ensures forall i :: 0 <= i < |w| ==> ' ' !in w[i]
  {
    Split(TrimSpace(line), ' ')
  }

  /** The command a line's words stand for; only the first two words are looked at. */
  function Classify(words: seq<string>): Command
    requires |words| >= 1
  {
    if words[0] == "server" then
      if |words| >= 2 then SetServer(words[1]) else MissingArgument("server")
    else if words[0] == "proxy" then
      if |words| >= 2 then SetProxy(words[1]) else MissingArgument("proxy")
    else if words[0] == "exit" then Quit
    else Lookup(words[0])
  }

  function Parse(line: string): Command {
    Classify(Words(line))
  }

  /**
   How a line's command is chosen. Its first word decides: `exit` quits,
   `server` and `proxy` take the second word (and panic without one), any
   other word is looked up. Words after the second are ignored.
   */
  lemma ParseDispatch(line: string)
    ensures var w, c := Words(line), Parse(line);
      && (c == Quit <==> w[0] == "exit")
      && (c.MissingArgument? <==> (w[0] == "server" || w[0] == "proxy") && |w| == 1)
      && (c.MissingArgument? ==> c.verb == w[0])
      && (c.SetServer? <==> w[0] == "server" && |w| >= 2)
      && (c.SetServer? ==> c.addr == w[1])
      && (c.SetProxy? <==> w[0] == "proxy" && |w| >= 2)
      && (c.SetProxy? ==> c.addr == w[1])
      && (c.Lookup? <==> w[0] != "server" && w[0] != "proxy" && w[0] != "exit")
      && (c.Lookup? ==> c.domain == w[0])
  {
  }

  /**
   The settings after a command. `server` touches only the server and
   `proxy` only the proxy; both default the port. The proxy set from the
   console is never empty, so direct mode cannot be restored there.
   */
  function Apply(cfg: Settings, cmd: Command): (r: Settings)
    ensures cmd.SetServer? ==> r.proxy == cfg.proxy && HasPort(r.server) && cmd.addr <= r.server
    ensures cmd.SetServer? && HasPort(cmd.addr) ==> r.server == cmd.addr
    ensures cmd.SetProxy? ==> r.server == cfg.server && HasPort(r.proxy) && cmd.addr <= r.proxy
    ensures cmd.SetProxy? && HasPort(cmd.addr) ==> r.proxy == cmd.addr
    ensures cmd.SetProxy? ==> r.proxy != ""
    ensures cmd.SetServer? ==> r.server == Normalize(cmd.addr, DnsPort)
    ensures cmd.SetProxy? ==> r.proxy == Normalize(cmd.addr, ProxyPort)
    ensures !cmd.SetServer? && !cmd.SetProxy? ==> r == cfg
  {
    match cmd
    case SetServer(addr) => cfg.(server := Normalize(addr, DnsPort))
    case SetProxy(addr) => cfg.(proxy := Normalize(addr, ProxyPort))
    case _ => cfg
  }

  /** What one read stands for: the command of a line, or `None` for a read error. */
  function Meaning(read: ReadOutcome): Option<Command> {
    if read.Line? then Some(Parse(read.text)) else None
  }

  /** What each read stands for, in order. */
  function Commands(input: seq<ReadOutcome>): (cmds: seq<Option<Command>>)
    ensures |cmds| == |input|
  {
    if input == [] then [] else [Meaning(input[0])] + Commands(input[1..])
  }

  /** The command at position `i` is the meaning of the `i`-th read. */
  lemma {:induction false} CommandsAt(input: seq<ReadOutcome>, i: nat)
    requires i < |input|
    ensures Commands(input)[i] == Meaning(input[i])
  {
    if i > 0 {
      CommandsAt(input[1..], i - 1);
    }
  }

  /**
   The loop over a sequence of commands: read errors are skipped, `exit`
   and a panic end it, every lookup is recorded with the settings of the
   moment and leaves the settings as they are.
   */
  function Replay(cfg: Settings, cmds: seq<Option<Command>>): (r: SessionResult)
    ensures |r.issued| <= |cmds|
    decreases |cmds|
  {
    if cmds == [] then SessionResult(cfg, InputEnded, [])
    else match cmds[0]
      case None => Replay(cfg, cmds[1..])
      case Some(Quit) => SessionResult(cfg, Exited, [])
      case Some(MissingArgument(verb)) => SessionResult(cfg, Panicked(verb), [])
      case Some(Lookup(domain)) =>
        var rest := Replay(cfg, cmds[1..]);
        rest.(issued := [Request(domain, cfg)] + rest.issued)
      case Some(cmd) => Replay(Apply(cfg, cmd), cmds[1..])
  }

  /** One turn of the replay, at position `i` of the commands. */
  lemma ReplayAt(cfg: Settings, cmds: seq<Option<Command>>, i: nat)
    requires i < |cmds|
    ensures cmds[i].None? ==> Replay(cfg, cmds[i..]) == Replay(cfg, cmds[i + 1..])
    ensures cmds[i] == Some(Quit) ==> Replay(cfg, cmds[i..]) == SessionResult(cfg, Exited, [])
    ensures cmds[i].Some? && cmds[i].value.MissingArgument? ==>
      Replay(cfg, cmds[i..]) == SessionResult(cfg, Panicked(cmds[i].value.verb), [])
    ensures cmds[i].Some? && cmds[i].value.Lookup? ==>
      var next := Replay(cfg, cmds[i + 1..]);
      Replay(cfg, cmds[i..]) == next.(issued := [Request(cmds[i].value.domain, cfg)] + next.issued)
    ensures cmds[i].Some? && (cmds[i].value.SetServer? || cmds[i].value.SetProxy?) ==>
      Replay(cfg, cmds[i..]) == Replay(Apply(cfg, cmds[i].value), cmds[i + 1..])
  {
    assert cmds[i..][0] == cmds[i] && cmds[i..][1..] == cmds[i + 1..];
  }

  /** The console loop over the lines read: the replay of what they stand for. */
  function Session(cfg: Settings, input: seq<ReadOutcome>): (r: SessionResult)
    ensures |r.issued| <= |input|
  {
    Replay(cfg, Commands(input))
  }

  /** The words of a padded line are the words that were joined. */
  lemma WordsOf(pre: string, words: seq<string>, post: string)
    requires AllSpace(pre) && AllSpace(post)
    requires |words| >= 1 && forall i :: 0 <= i < |words| ==> ' ' !in words[i]
    requires Trimmed(Join(words, ' '))
    ensures Words(pre + Join(words, ' ') + post) == words
  {
    TrimSpaceOf(pre, Join(words, ' '), post);
    SplitJoin(words, ' ');
  }

  /** `server X` and `proxy X` (X one word) set X, whatever white space surrounds the line. */
  lemma ParseSetting(pre: string, verb: string, x: string, post: string)
    requires verb == "server" || verb == "proxy"
    requires AllSpace(pre) && AllSpace(post)
    requires x != [] && ' ' !in x && !IsSpace(x[|x| - 1])
    ensures Parse(pre + verb + " " + x + post) ==
      if verb == "server" then SetServer(x) else SetProxy(x)
  {
    var words := [verb, x];
    var line := verb + " " + x;
    assert Join(words, ' ') == line by {
      assert Join(words[1..], ' ') == x;
    }
    assert ' ' !in verb && !IsSpace(verb[0]);
    assert Trimmed(line) by {
      assert line[0] == verb[0] && line[|line| - 1] == x[|x| - 1];
    }
    assert pre + verb + " " + x + post == pre + line + post;
    WordsOf(pre, words, post);
  }

  /** `server` or `proxy` alone (or followed only by white space) has no argument: the program panics. */
  lemma ParseBareVerb(pre: string, verb: string, post: string)
    requires verb == "server" || verb == "proxy"
    requires AllSpace(pre) && AllSpace(post)
    ensures Parse(pre + verb + post) == MissingArgument(verb)
  {
    assert Join([verb], ' ') == verb;
    WordsOf(pre, [verb], post);
  }

  /** `exit` alone, with any surrounding white space, quits. */
  lemma ParseExit(pre: string, post: string)
    requires AllSpace(pre) && AllSpace(post)
    ensures Parse(pre + "exit" + post) == Quit
  {
    assert Join(["exit"], ' ') == "exit";
    WordsOf(pre, ["exit"], post);
    assert Words(pre + "exit" + post) == ["exit"];
    assert "exit" != "server" && "exit" != "proxy" by {
      assert "exit"[0] != "server"[0] && "exit"[0] != "proxy"[0];
    }
  }

  /** Any other single word is a domain to look up. */
  lemma ParseLookup(pre: string, w: string, post: string)
    requires AllSpace(pre) && AllSpace(post)
    requires w != [] && ' ' !in w && Trimmed(w)
    requires w != "server" && w != "proxy" && w != "exit"
    ensures Parse(pre + w + post) == Lookup(w)
  {
    assert Join([w], ' ') == w;
    WordsOf(pre, [w], post);
  }

  /** A blank line is a lookup of the empty domain. */
  lemma ParseBlankLine(line: string)
    requires AllSpace(line)
    ensures Parse(line) == Lookup("")
  {
    assert line + "" + "" == line;
    TrimSpaceOf(line, "", "");
  }

  /** The console panics only on `server` or `proxy` without an argument. */
  lemma {:induction false} PanicsOnlyOnSettings(cfg: Settings, input: seq<ReadOutcome>)
    ensures var stop := Session(cfg, input).stop;
      stop.Panicked? ==> stop.verb == "server" || stop.verb == "proxy"
    decreases |input|
  {
    if input != [] {
      var cmds := Commands(input);
      assert cmds[0] == Meaning(input[0]) && cmds[1..] == Commands(input[1..]);
      match cmds[0]
      case None => PanicsOnlyOnSettings(cfg, input[1..]);
      case Some(cmd) =>
        if cmd.Lookup? || cmd.SetServer? || cmd.SetProxy? {
          PanicsOnlyOnSettings(Apply(cfg, cmd), input[1..]);
        }
    }
  }

  /**
   Once a proxy is set, no sequence of console commands clears it: every
   lookup goes through the proxy, and so does the final setting.
   */
  lemma {:induction false} ProxyStaysSet(cfg: Settings, cmds: seq<Option<Command>>)
    requires cfg.proxy != ""
    ensures Replay(cfg, cmds).final.proxy != ""
    ensures forall i :: 0 <= i < |Replay(cfg, cmds).issued| ==>
      Replay(cfg, cmds).issued[i].settings.proxy != ""
    decreases |cmds|
  {
    if cmds != [] {
      match cmds[0]
      case None => ProxyStaysSet(cfg, cmds[1..]);
      case Some(cmd) =>
        if cmd.Lookup? || cmd.SetServer? || cmd.SetProxy? {
          ProxyStaysSet(Apply(cfg, cmd), cmds[1..]);
        }
    }
  }

  /** The commands of two runs of reads, one after the other, are their commands one after the other. */
  lemma {:induction false} CommandsAppend(a: seq<ReadOutcome>, b: seq<ReadOutcome>)
    ensures Commands(a + b) == Commands(a) + Commands(b)
    decreases |a|
  {
    if a == [] {
      assert a + b == b;
    } else {
      assert (a + b)[0] == a[0] && (a + b)[1..] == a[1..] + b;
      CommandsAppend(a[1..], b);
    }
  }

  /**
   A replay that uses up its commands carries on into the next ones: the
   second part starts from the settings the first left, and its lookups
   follow the first part's.
   */
  lemma {:induction false} ReplayAppend(cfg: Settings, a: seq<Option<Command>>, b: seq<Option<Command>>)
    requires Replay(cfg, a).stop == InputEnded
    ensures var first := Replay(cfg, a);
      var rest := Replay(first.final, b);
      Replay(cfg, a + b) == SessionResult(rest.final, rest.stop, first.issued + rest.issued)
    decreases |a|
  {
    if a == [] {
      assert a + b == b;
    } else {
      assert (a + b)[0] == a[0] && (a + b)[1..] == a[1..] + b;
      match a[0]
      case None => ReplayAppend(cfg, a[1..], b);
      case Some(cmd) =>
        if cmd.Lookup? {
          ReplayAppend(cfg, a[1..], b);
          var later := Replay(cfg, a[1..]).issued;
          var rest := Replay(Replay(cfg, a[1..]).final, b).issued;
          assert [Request(cmd.domain, cfg)] + later + rest == [Request(cmd.domain, cfg)] + (later + rest);
        } else if cmd.SetServer? || cmd.SetProxy? {
          ReplayAppend(Apply(cfg, cmd), a[1..], b);
        }
    }
  }

  /**
   A `proxy` line makes the proxy non-empty for the rest of the session:
   every lookup issued after it goes through a proxy, and the session ends
   with one.
   */
  lemma {:induction false} DirectModeIsLost(cfg: Settings, before: seq<ReadOutcome>, text: string,
                                            after: seq<ReadOutcome>)
    requires Session(cfg, before).stop == InputEnded
    requires Parse(text).SetProxy?
    ensures var whole := Session(cfg, before + [Line(text)] + after);
      && whole.final.proxy != ""
      && forall i :: |Session(cfg, before).issued| <= i < |whole.issued| ==>
           whole.issued[i].settings.proxy != ""
  {
    var tail := [Line(text)] + after;
    assert before + [Line(text)] + after == before + tail;
    CommandsAppend(before, tail);
    ReplayAppend(cfg, Commands(before), Commands(tail));
    assert tail[0] == Line(text) && tail[1..] == after;
    var first := Session(cfg, before);
    ProxyStaysSet(Apply(first.final, Parse(text)), Commands(after));
  }

  /** Starting from a server with a port, every lookup is issued to a server with a port. */
  lemma {:induction false} ServersKeepPort(cfg: Settings, cmds: seq<Option<Command>>)
    requires HasPort(cfg.server)
    ensures HasPort(Replay(cfg, cmds).final.server)
    ensures forall i :: 0 <= i < |Replay(cfg, cmds).issued| ==>
      HasPort(Replay(cfg, cmds).issued[i].settings.server)
    decreases |cmds|
  {
    if cmds != [] {
      match cmds[0]
      case None => ServersKeepPort(cfg, cmds[1..]);
      case Some(cmd) =>
        if cmd.Lookup? || cmd.SetServer? || cmd.SetProxy? {
          ServersKeepPort(Apply(cfg, cmd), cmds[1..]);
        }
    }
  }

  /**
   Lookups change nothing: a run of lookups and read errors ends with the
   settings it began with and issues every lookup under them.
   */
  lemma {:induction false} LookupsKeepSettings(cfg: Settings, cmds: seq<Option<Command>>)
    requires forall i :: 0 <= i < |cmds| ==> cmds[i].Some? ==> cmds[i].value.Lookup?
    ensures Replay(cfg, cmds).final == cfg
    ensures Replay(cfg, cmds).stop == InputEnded
    ensures forall i :: 0 <= i < |Replay(cfg, cmds).issued| ==>
      Replay(cfg, cmds).issued[i].settings == cfg
    decreases |cmds|
  {
    if cmds != [] {
      LookupsKeepSettings(cfg, cmds[1..]);
    }
  }

  /** The console's state: the two settings, updated in place by the commands. */
  class Prompt {
    var dnsServer: string
    var proxyServer: string

    function Current(): Settings
      reads this
    {
      Settings(dnsServer, proxyServer)
    }

    /** Startup: the flags with their ports defaulted; an empty proxy stays empty. */
    constructor (serverFlag: string, proxyFlag: string)
      ensures Current() == Startup(serverFlag, proxyFlag)
    {
      dnsServer := serverFlag;
      proxyServer := proxyFlag;
      new;
      if !HasPort(dnsServer) {
        dnsServer := dnsServer + ":" + DnsPort;
      }
      if proxyServer != "" && !HasPort(proxyServer) {
        proxyServer := proxyServer + ":" + ProxyPort;
      }
    }

    /** Interprets one line: returns its command and applies it to the settings. */
    method Step(line: string) returns (cmd: Command)
      modifies this
      ensures cmd == Parse(line)
      ensures Current() == Apply(old(Current()), cmd)
    {
      var words := Words(line);
      cmd := Classify(words);
      match cmd
      case SetServer(addr) =>
        dnsServer := addr;
        if !HasPort(dnsServer) {
          dnsServer := dnsServer + ":" + DnsPort;
        }
      case SetProxy(addr) =>
        proxyServer := addr;
        if !HasPort(proxyServer) {
          proxyServer := proxyServer + ":" + ProxyPort;
        }
      case _ =>
    }

    /**
     The turn of the loop on the `i`-th read, a line: its command, as the
     commands of the whole input record it, is applied to the settings.
     */
    method Turn(input: seq<ReadOutcome>, i: nat) returns (cmd: Command)
      requires i < |input| && input[i].Line?
      modifies this
      ensures Commands(input)[i] == Some(cmd)
      ensures Current() == Apply(old(Current()), cmd)
    {
      cmd := Step(input[i].text);
      CommandsAt(input, i);
    }

    /** Runs the loop over `input`; the lookups it issues are returned in order. */
    method Run(input: seq<ReadOutcome>) returns (stop: Stop, issued: seq<Request>)
      modifies this
      ensures Session(old(Current()), input) == SessionResult(Current(), stop, issued)
    {
      ghost var cmds := Commands(input);
      ghost var whole := Replay(Current(), cmds);
      issued := [];
      var i := 0;
      while i < |input|
        invariant 0 <= i <= |input|
        invariant whole.final == Replay(Current(), cmds[i..]).final
        invariant whole.stop == Replay(Current(), cmds[i..]).stop
        invariant whole.issued == issued + Replay(Current(), cmds[i..]).issued
        decreases |input| - i
      {
        ReplayAt(Current(), cmds, i);
        if input[i].ReadError? {
          CommandsAt(input, i);
          i := i + 1;
          continue;
        }
        var before := Current();
        var cmd := Turn(input, i);
        if cmd.Quit? {
          return Exited, issued;
        } else if cmd.MissingArgument? {
          return Panicked(cmd.verb), issued;
        } else if cmd.Lookup? {
          issued := issued + [Request(cmd.domain, before)];
        }
        i := i + 1;
      }
      stop := InputEnded;
    }
  }

  /** How a run of the program ends. */
  datatype Outcome =
    | OneShot(result: QueryResult, trace: seq<Event>)
    | Interactive(session: SessionResult)

  /**
   The program: the flags are defaulted; with a `-domain` flag that one
   domain is looked up (an error is fatal) over `net`, otherwise the console
   reads `input`.
   */
  method Launch(domainFlag: string, serverFlag: string, proxyFlag: string,
                net: Network, input: seq<ReadOutcome>) returns (o: Outcome)
    ensures o.OneShot? <==> domainFlag != ""
    ensures o.OneShot? ==>
      var cfg := Startup(serverFlag, proxyFlag);
      && o.trace ==
        [Dial(SelectTransport(cfg.server, cfg.proxy))]
        + (if net.dial.Done? then [Write(BuildQuery(domainFlag))] else [])
        + (if net.dial.Done? && net.write.Done? then [Read] else [])
      && (o.result.err.None? <==> net.dial.Done? && net.write.Done? && net.read.Received?)
      && (o.result.err.Some? ==> o.result.name == domainFlag && o.result.addr == "")
      && (net.dial.Failed? ==> o.result.err == Some(net.dial.err))
      && (net.dial.Done? && net.write.Failed? ==> o.result.err == Some(net.write.err))
      && (net.dial.Done? && net.write.Done? && net.read.ReadFailed? ==> o.result.err == Some(net.read.err))
      && (o.result.err.None? ==> (o.result.name, o.result.addr) == SelectAnswer(domainFlag, net.read.decoded))
    ensures o.Interactive? ==> o.session == Session(Startup(serverFlag, proxyFlag), input)
  {
    var console := new Prompt(serverFlag, proxyFlag);
    if domainFlag != "" {
      var res, trace := Query(domainFlag, console.dnsServer, console.proxyServer, net);
      return OneShot(res, trace);
    }
    var stop, issued := console.Run(input);
    o := Interactive(SessionResult(console.Current(), stop, issued));
  }
}
