/** Parsing of the listening-socket table
    (internal/installation/linux_socket_snapshot.go). */
module SocketSnapshot {
  import opened Basics
  import opened Text
  import opened Pm2Correlation
  import D = Decimal

  const MIGRATION_PORTS: seq<Port> := [4550, 8080, 9090]

  const GREATEST_INT: nat := 0x7FFF_FFFF_FFFF_FFFF

  predicate StartsWithPort(candidate: string, port: Port) {
    var approved := D.Text(port);
    && HasPrefix(candidate, approved)
    && (|candidate| == |approved| || !D.IsDigit(candidate[|approved|]))
  }

  predicate MentionsMigrationPort(value: string) {
    exists i :: 0 <= i < |Fields(value)| &&
                var field := Fields(value)[i];
                var candidate := field[LastIndexByte(field, ':') + 1..];
                exists k :: 0 <= k < |MIGRATION_PORTS| && StartsWithPort(candidate, MIGRATION_PORTS[k])
  }

  function DigitRun(s: string): (n: nat)
    ensures n <= |s| && D.AllDigits(s[..n])
    ensures n < |s| ==> !D.IsDigit(s[n])
  {
    if s == "" || !D.IsDigit(s[0]) then 0 else 1 + DigitRun(s[1..])
  }

  /** The one `pid=` group of a line that mentions exactly one. */
  function PidText(line: string): Option<string> {
    var at := Index(line, "pid=");
    if at < 0 then None
    else
      var rest := line[at + 4..];
      var n := DigitRun(rest);
      if n > 0 && n < |rest| && rest[n] == ',' then Some(rest[..n]) else None
  }

  predicate MentionsOnePid(line: string) {
    var at := Index(line, "pid=");
    at >= 0 && !Contains(line[at + 4..], "pid=")
  }

  datatype Verdict = Skip | Reject | Listener(owner: SocketOwner)

  /** What one line of the listing contributes. */
  function Classify(line: string): Verdict {
    var fields := Fields(line);
    if |fields| < 4 then
      if MentionsMigrationPort(line) then Reject else Skip
    else
      var separator := LastIndexByte(fields[3], ':');
      if separator < 0 then
        if MentionsMigrationPort(line) then Reject else Skip
      else
        var portText := fields[3][separator + 1..];
        var port := D.ParseUint(portText, 0xFFFF);
        if port.None? then
          if MentionsMigrationPort(fields[3]) then Reject else Skip
        else if port.value !in MIGRATION_PORTS then Skip
        else if fields[0] != "LISTEN" || port.value == 0 || D.Text(port.value) != portText || !MentionsOnePid(line) then Reject
        else
          var pidText := PidText(line);
          if pidText.None? then Reject
          else
            var pid := D.ParseUint(pidText.value, GREATEST_INT);
            if pid.None? || pid.value == 0 || D.Text(pid.value) != pidText.value then Reject
            else Listener(SocketOwner(pid.value, port.value))
  }

  /** The line holds one process id, printed as `ss` does. */
  ghost predicate ShowsPid(line: string, pid: int, head: string, tail: string)
    requires pid >= 0
  {
    && line == head + ("pid=" + (D.Text(pid) + ("," + tail)))
    && forall i :: OccursAt(line, "pid=", i) ==> i == |head|
  }

  ghost predicate ShowsPort(field: string, port: int, host: string)
    requires port >= 0
  {
    field == host + (":" + D.Text(port))
  }

  /** The line lists a listening socket of an approved port and its one process. */
  ghost predicate Shows(line: string, owner: SocketOwner) {
    && |Fields(line)| >= 4 && Fields(line)[0] == "LISTEN"
    && owner.port in MIGRATION_PORTS && 0 < owner.pid <= GREATEST_INT
    && (exists host :: ShowsPort(Fields(line)[3], owner.port, host))
    && (exists head, tail :: ShowsPid(line, owner.pid, head, tail))
  }

  lemma PortIsShown(field: string, port: int, host: string)
    requires 0 <= port <= 0xFFFF && ShowsPort(field, port, host)
    ensures LastIndexByte(field, ':') == |host| && field[|host| + 1..] == D.Text(port)
    ensures D.ParseUint(D.Text(port), 0xFFFF) == Some(port)
  {
    hide D.Text;
    D.ValueOfText(port);
    var text := D.Text(port);
    assert field[|host|] == ':' && field[|host| + 1..] == text;
    forall i | |host| < i < |field| ensures field[i] != ':' {
      assert field[i] == text[i - |host| - 1];
    }
  }

  lemma {:induction false} RunOfDigits(digits: string, rest: string)
    requires D.AllDigits(digits) && rest != "" && !D.IsDigit(rest[0])
    ensures DigitRun(digits + rest) == |digits|
  {
    if digits == "" {
      assert digits + rest == rest;
    } else {
      assert (digits + rest)[1..] == digits[1..] + rest;
      RunOfDigits(digits[1..], rest);
    }
  }

  lemma PidIsShown(line: string, pid: int, head: string, tail: string)
    requires 0 < pid <= GREATEST_INT && ShowsPid(line, pid, head, tail)
    ensures MentionsOnePid(line) && PidText(line) == Some(D.Text(pid)) && D.ParseUint(D.Text(pid), GREATEST_INT) == Some(pid)
  {
    hide D.Text, DigitRun;
    D.ValueOfText(pid);
    var text := D.Text(pid);
    var rest := text + ("," + tail);
    assert line[|head|..] == "pid=" + rest && line[|head| + 4..] == rest;
    assert OccursAt(line, "pid=", |head|);
    assert Index(line, "pid=") == |head|;
    forall i | i >= 0 ensures !OccursAt(rest, "pid=", i) {
      OccursLater(line, |head| + 4, i);
    }
    RunOfDigits(text, "," + tail);
    assert rest[..|text|] == text && rest[|text|] == ',';
  }

  lemma OccursLater(line: string, from: nat, i: int)
    requires from <= |line| && i >= 0
    ensures OccursAt(line[from..], "pid=", i) <==> OccursAt(line, "pid=", from + i)
  {
    if from + i + 4 <= |line| {
      assert line[from..][i..i + 4] == line[from + i..from + i + 4];
    }
  }

  lemma OnlyOccurrence(line: string, at: nat, i: int)
    requires OccursAt(line, "pid=", at) && !Contains(line[at + 4..], "pid=") && Index(line, "pid=") == at
    requires OccursAt(line, "pid=", i)
    ensures i == at
  {
    assert line[at + 1] == line[at..at + 4][1] && line[at + 2] == line[at..at + 4][2] && line[at + 3] == line[at..at + 4][3];
    assert line[i] == line[i..i + 4][0];
    if i >= at + 4 {
      OccursLater(line, at + 4, i - at - 4);
    }
  }

  lemma PidWasShown(line: string, pid: int)
    requires pid >= 0 && MentionsOnePid(line) && PidText(line) == Some(D.Text(pid))
    ensures exists head, tail :: ShowsPid(line, pid, head, tail)
  {
    hide D.Text, DigitRun, Contains, ShowsPid;
    var at := Index(line, "pid=");
    var rest := line[at + 4..];
    var n := DigitRun(rest);
    forall i | OccursAt(line, "pid=", i) ensures i == at {
      OnlyOccurrence(line, at, i);
    }
    assert rest == rest[..n] + ("," + rest[n + 1..]);
    assert line == line[..at] + ("pid=" + rest);
    ShownAt(line, pid, line[..at], rest[n + 1..]);
  }

  lemma ShownAt(line: string, pid: int, head: string, tail: string)
    requires pid >= 0 && line == head + ("pid=" + (D.Text(pid) + ("," + tail)))
    requires forall i :: OccursAt(line, "pid=", i) ==> i == |head|
    ensures ShowsPid(line, pid, head, tail)
  {
    hide D.Text;
  }

  lemma PortWasShown(field: string, port: int)
    requires port >= 0 && LastIndexByte(field, ':') >= 0 && field[LastIndexByte(field, ':') + 1..] == D.Text(port)
    ensures exists host :: ShowsPort(field, port, host)
  {
    hide D.Text;
    var i := LastIndexByte(field, ':');
    assert field == field[..i] + (":" + D.Text(port));
    assert ShowsPort(field, port, field[..i]);
  }

  /** A line is read as a listener exactly when it shows one: nothing else is taken for
      a listener, and none is missed. */
  lemma ListenerExactly(line: string, owner: SocketOwner)
    ensures Classify(line) == Listener(owner) <==> Shows(line, owner)
  {
    hide Fields, LastIndexByte, D.Text, D.ParseUint, ShowsPort, ShowsPid, PidText, MentionsOnePid, MentionsMigrationPort;
    if Shows(line, owner) {
      var host :| ShowsPort(Fields(line)[3], owner.port, host);
      var head, tail :| ShowsPid(line, owner.pid, head, tail);
      PortIsShown(Fields(line)[3], owner.port, host);
      PidIsShown(line, owner.pid, head, tail);
    }
    if Classify(line) == Listener(owner) {
      PortWasShown(Fields(line)[3], owner.port);
      PidWasShown(line, owner.pid);
      ParsedIsBounded(PidText(line).value, GREATEST_INT);
    }
  }

  /** A skipped line names no approved port: its address ends in none, and where no
      number can be read as its port, nothing in it even looks like one. */
  lemma SkippedNamesNone(line: string)
    requires Classify(line).Skip?
    ensures |Fields(line)| < 4 ==> !MentionsMigrationPort(line)
    ensures |Fields(line)| >= 4 ==> forall port, host :: port in MIGRATION_PORTS ==> !ShowsPort(Fields(line)[3], port, host)
    ensures |Fields(line)| >= 4 && ':' !in Fields(line)[3] ==> !MentionsMigrationPort(line)
  {
    hide Fields, LastIndexByte, D.Text, D.ParseUint, ShowsPort, PidText, MentionsOnePid, MentionsMigrationPort;
    if |Fields(line)| >= 4 {
      forall port, host | port in MIGRATION_PORTS && ShowsPort(Fields(line)[3], port, host) ensures false {
        PortIsShown(Fields(line)[3], port, host);
      }
    }
  }

  lemma ParsedIsBounded(text: string, greatest: nat)
    ensures D.ParseUint(text, greatest).Some? ==> D.ParseUint(text, greatest).value <= greatest
  {
  }

  ghost predicate Listens(lines: seq<string>, owner: SocketOwner) {
    exists line :: line in lines && Classify(line) == Listener(owner)
  }

  /** No line is rejected and no port has two owners. */
  ghost predicate Readable(lines: seq<string>) {
    && (forall line :: line in lines ==> !Classify(line).Reject?)
    && (forall a, b :: Listens(lines, a) && Listens(lines, b) && a.port == b.port ==> a == b)
  }

  /** The loop of `ParseSocketSnapshot`: it accepts exactly the readable listings and
      returns each listener once. */
  method ParseLines(lines: seq<string>) returns (result: Option<seq<SocketOwner>>)
    ensures result.Some? <==> Readable(lines)
    ensures result.Some? ==> Distinct(result.value) && forall o :: o in result.value <==> Listens(lines, o)
  {
    var ports: map<Port, int> := map[];
    var seen: set<SocketOwner> := {};
    var owners: seq<SocketOwner> := [];
    for i := 0 to |lines|
      invariant forall line :: line in lines[..i] ==> !Classify(line).Reject?
      invariant forall o :: o in seen <==> Listens(lines[..i], o)
      invariant forall o :: o in owners <==> o in seen
      invariant Distinct(owners)
      invariant forall o :: o in seen ==> o.port in ports && ports[o.port] == o.pid
      invariant forall p :: p in ports ==> SocketOwner(ports[p], p) in seen
    {
      var line := lines[i];
      assert lines[..i + 1] == lines[..i] + [line];
      assert line in lines;
      var verdict := Classify(line);
      if verdict.Reject? {
        return None;
      }
      if verdict.Listener? {
        var owner := verdict.owner;
        if owner.port in ports && ports[owner.port] != owner.pid {
          var other := SocketOwner(ports[owner.port], owner.port);
          assert Listens(lines, other) && Listens(lines, owner);
          return None;
        }
        ports := ports[owner.port := owner.pid];
        if owner !in seen {
          seen := seen + {owner};
          owners := owners + [owner];
        }
        assert Listens(lines[..i + 1], owner);
      }
    }
    assert lines[..|lines|] == lines;
    return Some(owners);
  }

  method ParseSocketSnapshot(data: string) returns (result: Option<seq<SocketOwner>>)
    ensures result.Some? ==> SocketFunction(result.value)
    ensures result.Some? <==> TrimSpace(data) == "" || Readable(Split(TrimSpace(data), '\n'))
    ensures result.Some? ==> forall o :: o in result.value <==>
              TrimSpace(data) != "" && Listens(Split(TrimSpace(data), '\n'), o)
  {
    var trimmed := TrimSpace(data);
    if trimmed == "" {
      return Some([]);
    }
    result := ParseLines(Split(trimmed, '\n'));
    if result.Some? {
      ListenersFormFunction(Split(trimmed, '\n'), result.value);
    }
  }

  /** A duplicate-free function from approved ports to positive process ids. */
  ghost predicate SocketFunction(owners: seq<SocketOwner>) {
    && Distinct(owners)
    && (forall o :: o in owners ==> o.pid > 0 && o.port in MIGRATION_PORTS)
    && (forall a, b :: a in owners && b in owners && a.port == b.port ==> a == b)
  }

  lemma ListenersFormFunction(lines: seq<string>, owners: seq<SocketOwner>)
    requires Readable(lines) && Distinct(owners)
    requires forall o :: o in owners <==> Listens(lines, o)
    ensures SocketFunction(owners)
  {
    forall o | o in owners ensures o.pid > 0 && o.port in MIGRATION_PORTS {
      var line :| line in lines && Classify(line) == Listener(o);
    }
  }

  /** On any listing the parser returns, both socket ambiguity errors of the
      correlation are unreachable. */
  lemma ParsedSocketsNeverAmbiguous(owners: seq<SocketOwner>, records: seq<Record>, proc: map<int, ProcIdentity>)
    requires SocketFunction(owners)
    ensures Correlation(records, owners, proc) != Err(SocketAmbiguous)
  {
    assert SocketsUnambiguous(owners);
  }
}
