/** Which SSH host keys are trusted: the pin, the known-hosts file, and trust on first use. */
module KnownHosts {
  import opened Options
  import opened Decimals

  // ---- how a host is spelled in the file ----

  const DEFAULT_PORT := 22

  function Bracketed(host: string, port: nat): string {
    "[" + host + "]:" + Show(port)
  }

  /** host_key_id; port 0 stands for the default. */
  function HostKeyId(host: string, port: nat): string {
    if port == 0 || port == DEFAULT_PORT then host else Bracketed(host, port)
  }

  function PortOf(port: nat): nat {
    if port == 0 then DEFAULT_PORT else port
  }

  /** The spelling, outright: the bare host on the default port, `[host]:port` on any other. */
  lemma SpelledAsOpenSshDoes(host: string, port: nat)
    ensures HostKeyId(host, 0) == host && HostKeyId(host, 22) == host
    ensures port != 0 && port != 22 ==> HostKeyId(host, port) == "[" + host + "]:" + Show(port)
  {
  }

  function DigitsBegin(s: string, i: nat): (n: nat)
    requires i <= |s|
    ensures n <= i
    ensures n > 0 ==> !IsDigit(s[n - 1])
    ensures forall k :: n <= k < i ==> IsDigit(s[k])
  {
    if i > 0 && IsDigit(s[i - 1]) then DigitsBegin(s, i - 1) else i
  }

  lemma PortAtTheEnd(host: string, port: nat)
    ensures var s := Bracketed(host, port);
            && DigitsBegin(s, |s|) == |host| + 3
            && s[|host| + 3..] == Show(port)
            && s[1..|host| + 1] == host
  {
    var s := Bracketed(host, port);
    assert s[|host| + 2] == ':';
    assert forall k :: |host| + 3 <= k < |s| ==> s[k] == Show(port)[k - |host| - 3];
  }

  lemma BracketedIsInjective(host: string, port: nat, other: string, otherPort: nat)
    requires Bracketed(host, port) == Bracketed(other, otherPort)
    ensures host == other && port == otherPort
  {
    PortAtTheEnd(host, port);
    PortAtTheEnd(other, otherPort);
    ShowIsInjective(port, otherPort);
  }

  /** Two spellings meet exactly when host and port do, or when a host on the default port is itself
      written like the other one's bracketed spelling. */
  lemma SpellingsMeet(host: string, port: nat, other: string, otherPort: nat)
    ensures HostKeyId(host, port) == HostKeyId(other, otherPort) <==>
            || (host == other && PortOf(port) == PortOf(otherPort))
            || (PortOf(port) == DEFAULT_PORT && PortOf(otherPort) != DEFAULT_PORT
                && host == Bracketed(other, otherPort))
            || (PortOf(otherPort) == DEFAULT_PORT && PortOf(port) != DEFAULT_PORT && other == Bracketed(host, port))
  {
    if PortOf(port) != DEFAULT_PORT && PortOf(otherPort) != DEFAULT_PORT
        && Bracketed(host, port) == Bracketed(other, otherPort) {
      BracketedIsInjective(host, port, other, otherPort);
    }
  }

  predicate NoBracket(host: string) {
    host == "" || host[0] != '['
  }

  /** No host name begins with a bracket: then the spelling tells host and port apart. */
  lemma SpellingIsInjective(host: string, port: nat, other: string, otherPort: nat)
    requires NoBracket(host) && NoBracket(other)
    ensures HostKeyId(host, port) == HostKeyId(other, otherPort) <==> host == other && PortOf(port) == PortOf(otherPort)
  {
    SpellingsMeet(host, port, other, otherPort);
    assert Bracketed(other, otherPort)[0] == '[' && Bracketed(host, port)[0] == '[';
  }

  // ---- one connection ----

  datatype HostKey = HostKey(kind: string, blob: string)

  datatype Entry = Entry(id: string, key: HostKey)

  /** What answers: nothing, or a server with this key that does or does not let us in. */
  datatype Network = Silent | Presents(key: HostKey, admits: bool)

  datatype Answer = Unknown | KeyChanged | Failed | Connected(key: HostKey)

  datatype Trust = Trust(known: seq<Entry>, pin: Option<HostKey>, firstUse: bool)

  /** _known_host_key: the first key recorded under this spelling. */
  function Lookup(known: seq<Entry>, id: string): Option<HostKey> {
    if known == [] then None else if known[0].id == id then Some(known[0].key) else Lookup(known[1..], id)
  }

  /** The key the server must present; None: any, and it is remembered. */
  function Expected(t: Trust, id: string): Option<HostKey> {
    if t.pin.Some? then t.pin else Lookup(t.known, id)
  }

  function Reply(t: Trust, id: string, net: Network): Answer {
    var expected := Expected(t, id);
    if expected.None? && !t.firstUse then Unknown
    else
      match net
      case Silent => Failed
      case Presents(key, admits) =>
        if expected.Some? && expected.value != key then KeyChanged else if admits then Connected(key) else Failed
  }

  /** The file after the connection: a line is added after a first use that got in, and never otherwise. */
  function KnownAfter(t: Trust, id: string, net: Network): seq<Entry> {
    var reply := Reply(t, id, net);
    if Expected(t, id).None? && reply.Connected? then t.known + [Entry(id, reply.key)] else t.known
  }

  class SshTrust {
    var known: seq<Entry>
    var pin: Option<HostKey>
    var firstUse: bool

    function State(): Trust
      reads this
    {
      Trust(known, pin, firstUse)
    }

    /** _known_host_key */
    method KnownHostKey(id: string) returns (key: Option<HostKey>)
      ensures key == Lookup(known, id)
    {
      var i := 0;
      while i < |known|
        invariant i <= |known|
        invariant Lookup(known, id) == Lookup(known[i..], id)
      {
        if known[i].id == id {
          return Some(known[i].key);
        }
        i := i + 1;
      }
      return None;
    }

    /** _record_host_key */
    method RecordHostKey(id: string, key: HostKey)
      modifies this`known
      ensures known == old(known) + [Entry(id, key)]
    {
      known := known + [Entry(id, key)];
    }

    /** ssh_client; `sitePort` is the port the site configures, used when the caller names none. */
    method SshClient(host: string, port: nat, sitePort: nat, net: Network) returns (answer: Answer)
      modifies this`known
      ensures var id := HostKeyId(host, if port == 0 then sitePort else port);
              answer == Reply(old(State()), id, net) && known == KnownAfter(old(State()), id, net)
    {
      var id := HostKeyId(host, if port == 0 then sitePort else port);
      var expected := pin;
      if expected.None? {
        expected := KnownHostKey(id);
        if expected.None? && !firstUse {
          return Unknown;
        }
      }
      if net.Silent? {
        return Failed;
      }
      if expected.Some? && expected.value != net.key {
        return KeyChanged;
      }
      if !net.admits {
        return Failed;
      }
      if expected.None? {
        RecordHostKey(id, net.key);
      }
      return Connected(net.key);
    }

    method SetHostKeyPin(key: Option<HostKey>)
      modifies this`pin
      ensures pin == key
    {
      pin := key;
    }

    method SetTrustOnFirstUse(trust: bool)
      modifies this`firstUse
      ensures firstUse == trust
    {
      firstUse := trust;
    }
  }

  // ---- any number of them ----

  datatype Event = Connect(host: string, port: nat,
      net: Network) | SetPin(key: Option<HostKey>) | SetFirstUse(trust: bool)

  function Step(t: Trust, e: Event): Trust {
    match e
    case Connect(host, port, net) => t.(known := KnownAfter(t, HostKeyId(host, port), net))
    case SetPin(key) => t.(pin := key)
    case SetFirstUse(trust) => t.(firstUse := trust)
  }

  function After(t: Trust, events: seq<Event>): Trust
    decreases |events|
  {
    if events == [] then t else Step(After(t, events[..|events| - 1]), events[|events| - 1])
  }

  lemma LookupConcat(known: seq<Entry>, more: seq<Entry>, id: string)
    ensures Lookup(known + more, id) == if Lookup(known, id).Some? then Lookup(known, id) else Lookup(more, id)
  {
    if known == [] {
      assert known + more == more;
    } else {
      assert (known + more)[1..] == known[1..] + more;
      LookupConcat(known[1..], more, id);
    }
  }

  /** A connection changes the answer for one spelling at most: its own, and only from none to the key
      that was just accepted. */
  lemma ConnectionRecords(t: Trust, id: string, net: Network, other: string)
    ensures Lookup(KnownAfter(t, id, net), other) ==
            if other == id && Expected(t, id).None? && Reply(t, id, net).Connected? then Some(Reply(t, id, net).key)
            else Lookup(t.known, other)
  {
    if Expected(t, id).None? && Reply(t, id, net).Connected? {
      LookupConcat(t.known, [Entry(id, Reply(t, id, net).key)], other);
    }
  }

  /** Recording a key for one host and port never alters the answer for another. */
  lemma OthersAreUntouched(t: Trust, host: string, port: nat, net: Network, other: string, otherPort: nat)
    requires NoBracket(host) && NoBracket(other) && !(host == other && PortOf(port) == PortOf(otherPort))
    ensures Lookup(Step(t, Connect(host, port, net)).known, HostKeyId(other, otherPort)) ==
            Lookup(t.known, HostKeyId(other, otherPort))
  {
    SpellingIsInjective(host, port, other, otherPort);
    ConnectionRecords(t, HostKeyId(host, port), net, HostKeyId(other, otherPort));
  }

  /** A key once recorded is the answer for good, whatever pins are set and lifted in between. */
  lemma {:induction false} RecordedStays(t: Trust, events: seq<Event>, id: string)
    requires Lookup(t.known, id).Some?
    ensures Lookup(After(t, events).known, id) == Lookup(t.known, id)
    decreases |events|
  {
    if events != [] {
      var before := events[..|events| - 1];
      RecordedStays(t, before, id);
      var e := events[|events| - 1];
      if e.Connect? {
        ConnectionRecords(After(t, before), HostKeyId(e.host, e.port), e.net, id);
      }
    }
  }

  lemma Slices(events: seq<Event>, i: nat)
    requires i < |events|
    ensures var n := |events| - 1;
            && events[..n][..i] == events[..i]
            && events[..n][i..] == events[i..][..n - i]
            && events[i..][n - i] == events[n]
  {
  }

  lemma AfterSplits(t: Trust, events: seq<Event>, i: nat)
    requires i <= |events|
    ensures After(t, events) == After(After(t, events[..i]), events[i..])
    decreases |events|
  {
    hide Step;
    if i < |events| {
      Slices(events, i);
      AfterSplits(t, events[..|events| - 1], i);
    } else {
      assert events[i..] == [] && events[..i] == events;
    }
  }

  /** The i-th event is a connection that got through without a pin. */
  ghost predicate Succeeds(t: Trust, events: seq<Event>, i: nat) {
    && i < |events| && events[i].Connect?
    && After(t, events[..i]).pin == None
    && Reply(After(t, events[..i]), HostKeyId(events[i].host, events[i].port), events[i].net).Connected?
  }

  /** An unpinned connection that gets through leaves its key as the recorded one. */
  lemma SuccessIsRecorded(t: Trust, id: string, net: Network)
    requires t.pin == None && Reply(t, id, net).Connected?
    ensures net.Presents? && Lookup(KnownAfter(t, id, net), id) == Some(net.key)
  {
    ConnectionRecords(t, id, net, id);
  }

  /** Over any run, from any file, with first-use trust switched on and off at will: all connections to
      one host and port that got through without a pin met the same key. */
  lemma SameKeyEveryTime(t: Trust, events: seq<Event>, i: nat, j: nat)
    requires i < j && Succeeds(t, events, i) && Succeeds(t, events, j)
    requires HostKeyId(events[i].host, events[i].port) == HostKeyId(events[j].host, events[j].port)
    ensures events[i].net.key == events[j].net.key
  {
    var id := HostKeyId(events[i].host, events[i].port);
    SuccessIsRecorded(After(t, events[..i]), id, events[i].net);
    var rest := events[i + 1..j];
    assert events[..i + 1][..i] == events[..i];
    RecordedStays(After(t, events[..i + 1]), rest, id);
    AfterSplits(t, events[..j], i + 1);
    assert events[..j][..i + 1] == events[..i + 1] && events[..j][i + 1..] == rest;
    SuccessIsRecorded(After(t, events[..j]), id, events[j].net);
    ConnectionRecords(After(t, events[..j]), id, events[j].net, id);
  }

  /** The key they all met is the first one the file ever held for that host and port. */
  lemma FirstRecordedKey(t: Trust, events: seq<Event>, i: nat)
    requires Succeeds(t, events, i) && Lookup(t.known, HostKeyId(events[i].host, events[i].port)).Some?
    ensures Some(events[i].net.key) == Lookup(t.known, HostKeyId(events[i].host, events[i].port))
  {
    RecordedStays(t, events[..i], HostKeyId(events[i].host, events[i].port));
  }

  /** Nobody pins a key or switches first-use trust on, before or during the run. */
  ghost predicate Untrusting(t: Trust, events: seq<Event>) {
    && t.pin == None && !t.firstUse
    && forall i :: 0 <= i < |events| ==> events[i] != SetFirstUse(true) && !(events[i].SetPin? && events[i].key.Some?)
  }

  lemma {:induction false} UntrustingStays(t: Trust, events: seq<Event>)
    requires Untrusting(t, events)
    ensures After(t, events) == t
    decreases |events|
  {
    if events != [] {
      UntrustingStays(t, events[..|events| - 1]);
    }
  }

  /** Without a pin and without first-use trust a whole run learns nothing, and a connection is refused as
      unknown exactly when the file had no key for it from the start; none of those gets through. */
  lemma UnknownIsRefused(t: Trust, events: seq<Event>, i: nat)
    requires Untrusting(t, events) && i < |events| && events[i].Connect?
    ensures After(t, events).known == t.known
    ensures var id := HostKeyId(events[i].host, events[i].port);
            && (Reply(After(t, events[..i]), id, events[i].net) == Unknown <==> Lookup(t.known, id) == None)
            && (Succeeds(t, events, i) ==> Lookup(t.known, id) == Some(events[i].net.key))
  {
    UntrustingStays(t, events);
    UntrustingStays(t, events[..i]);
  }

  // ---- what each setting enforces ----

  /** The recorded key is the first entry's under that spelling. */
  lemma {:induction false} LookupIsTheFirst(known: seq<Entry>, id: string)
    ensures Lookup(known, id) == None <==> forall i :: 0 <= i < |known| ==> known[i].id != id
    ensures forall i :: 0 <= i < |known| && known[i].id == id && (forall j :: 0 <= j < i ==> known[j].id != id) ==>
              Lookup(known, id) == Some(known[i].key)
  {
    if known != [] {
      var rest := known[1..];
      LookupIsTheFirst(rest, id);
      assert forall i :: 0 < i < |known| ==> known[i] == rest[i - 1];
      if known[0].id != id {
        forall i | 0 <= i < |known| && known[i].id == id && (forall j :: 0 <= j < i ==> known[j].id != id)
          ensures Lookup(known, id) == Some(known[i].key)
        {
          assert rest[i - 1].id == id;
          assert forall j :: 0 <= j < i - 1 ==> rest[j] == known[j + 1];
        }
      }
    }
  }

  /** A pin is enforced: with one, exactly the pinned key gets through, any other key is refused as changed,
      and nothing is written down. */
  lemma PinIsEnforced(t: Trust, id: string, net: Network, pin: HostKey)
    requires t.pin == Some(pin)
    ensures (exists key :: Reply(t, id, net) == Connected(key)) <==> net == Presents(pin, true)
    ensures Reply(t, id, net).Connected? ==> Reply(t, id, net) == Connected(pin)
    ensures Reply(t, id, net) == KeyChanged <==> net.Presents? && net.key != pin
    ensures Reply(t, id, net) == Failed <==> net == Silent || net == Presents(pin, false)
    ensures KnownAfter(t, id, net) == t.known
  {
    if net == Presents(pin, true) {
      assert Reply(t, id, net) == Connected(pin);
    }
  }

  /** Without a pin the same holds of the recorded key. */
  lemma RecordIsEnforced(t: Trust, id: string, net: Network, key: HostKey)
    requires t.pin == None && Lookup(t.known, id) == Some(key)
    ensures Reply(t, id, net).Connected? <==> net == Presents(key, true)
    ensures Reply(t, id, net) == KeyChanged <==> net.Presents? && net.key != key
    ensures Reply(t, id, net) == Failed <==> net == Silent || net == Presents(key, false)
    ensures KnownAfter(t, id, net) == t.known
  {
  }

  /** On first use any key of a server that lets us in is taken, and exactly then written down. */
  lemma FirstUseRecords(t: Trust, id: string, net: Network)
    requires t.pin == None && Lookup(t.known, id) == None && t.firstUse
    ensures Reply(t, id, net) == if net.Presents? && net.admits then Connected(net.key) else Failed
    ensures KnownAfter(t, id, net) == if net.Presents? && net.admits then t.known + [Entry(id, net.key)] else t.known
  {
  }

  /** A setting lasts until it is set again, whatever is connected to in between. */
  lemma {:induction false} SettingsLast(t: Trust, events: seq<Event>, i: nat)
    requires i < |events|
    ensures events[i].SetPin? && (forall j :: i < j < |events| ==> !events[j].SetPin?) ==>
              After(t, events).pin == events[i].key
    ensures events[i].SetFirstUse? && (forall j :: i < j < |events| ==> !events[j].SetFirstUse?) ==>
              After(t, events).firstUse == events[i].trust
    decreases |events|
  {
    var n := |events| - 1;
    if i < n {
      var before := events[..n];
      assert forall j :: 0 <= j < n ==> before[j] == events[j];
      SettingsLast(t, before, i);
    }
  }

  /** Over any run: a connection made after a pin was set, and before it is set again, gets through only with
      that pin, and with it whenever the server lets us in. */
  lemma PinnedRunsMeetThePin(t: Trust, events: seq<Event>, i: nat, k: nat, pin: HostKey)
    requires i < k < |events| && events[i] == SetPin(Some(pin)) && events[k].Connect?
    requires forall j :: i < j < k ==> !events[j].SetPin?
    ensures var reply := Reply(After(t, events[..k]), HostKeyId(events[k].host, events[k].port), events[k].net);
            && (reply.Connected? <==> events[k].net == Presents(pin, true))
            && (reply.Connected? ==> reply.key == pin)
    ensures After(t, events[..k + 1]).known == After(t, events[..k]).known
  {
    var before := events[..k];
    assert before[i] == events[i] && forall j :: i < j < k ==> before[j] == events[j];
    SettingsLast(t, before, i);
    PinIsEnforced(After(t, before), HostKeyId(events[k].host, events[k].port), events[k].net, pin);
    assert events[..k + 1][..k] == before;
  }
}
