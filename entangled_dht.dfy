/** The parts of services/service_entangled_dht.py that compute something:
    the parser of the `services/entangled-dht/known-nodes` setting in
    `network_configuration`, the split of `services/entangled-dht/attached-layers`
    into extra layer ids in `_on_connected`, and the guard that resolves the
    service's `starting_deferred` at most once across `_on_connected`,
    `_on_layers_attached` and `_on_connect_failed`.

    The DHT node itself is not modelled: every `dht_service.connect` is
    recorded in `DhtService.connects` with its layer id, and its completion
    comes back as a call of the matching handler. */
module EntangledDht {
  import opened Wrappers
  import opened Text

  /** One seed node: `{"host": ..., "udp_port": ...}`. */
  datatype NodeAddress = NodeAddress(host: string, udpPort: int)

  /** The separators of `re.split('\n|;|,| ', ...)`. */
  const Separators: set<char> := {'\n', ';', ',', ' '}

  // ---------------------------------------------------------------------
  // Known nodes

  /** One piece of the known-nodes setting, as the body of the parsing loop
      reads it: skipped (`None`) when it is blank, when it has no `:` (the
      `IndexError` on `dht_node[1]`) or when its port is not an integer (the
      `ValueError` of `int`); otherwise the stripped text before the first
      `:` and the integer between the first and the second. */
  function ParseNodeEntry(piece: string): Option<NodeAddress> {
    var s := Strip(piece);
    if s == [] then None else NodeOfFields(Split(s, {':'}))
  }

  /** `dht_node[0].strip()` and `int(dht_node[1].strip())`, or `None` when
      either raises. */
  function NodeOfFields(fields: seq<string>): Option<NodeAddress> {
    if |fields| < 2 then None
    else
      match ParseInt(Strip(fields[1]))
      case None => None
      case Some(port) => Some(NodeAddress(Strip(fields[0]), port))
  }

  /** The nodes the loop collects from `pieces`, in their order. */
  function ParsedNodes(pieces: seq<string>): seq<NodeAddress> {
    ParsedWith(ParseNodeEntry, pieces)
  }

  /** The loop with each piece read by `parse`; the lemmas about the loop's
      shape hold whatever the reading. */
  function ParsedWith(parse: string -> Option<NodeAddress>, pieces: seq<string>): seq<NodeAddress> {
    if pieces == [] then []
    else Keep(ParsedWith(parse, pieces[..|pieces| - 1]), parse(pieces[|pieces| - 1]))
  }

  /** `known_dht_nodes.append(...)` when the piece parsed, nothing otherwise. */
  function Keep(nodes: seq<NodeAddress>, entry: Option<NodeAddress>): seq<NodeAddress> {
    match entry
    case None => nodes
    case Some(n) => nodes + [n]
  }

  /** The pieces the loop visits: none when the stripped setting is empty. */
  function NodePieces(setting: string): seq<string> {
    var s := Strip(setting);
    if s == [] then [] else Split(s, Separators)
  }

  /** The `known_nodes` entry of `network_configuration`: the parsed nodes,
      or `defaults` (the network configuration file's list) when none parses. */
  function KnownNodesOf(setting: string, defaults: seq<NodeAddress>): seq<NodeAddress> {
    var parsed := ParsedNodes(NodePieces(setting));
    if parsed == [] then defaults else parsed
  }

  /** The parsing loop of `network_configuration` followed by the fallback. */
  method KnownNodes(setting: string, defaults: seq<NodeAddress>) returns (nodes: seq<NodeAddress>)
    ensures nodes == KnownNodesOf(setting, defaults)
  {
    var s := Strip(setting);
    nodes := [];
    if s != [] {
      var pieces := Split(s, Separators);
      for i := 0 to |pieces|
        invariant nodes == ParsedNodes(pieces[..i])
      {
        assert pieces[..i + 1][..i] == pieces[..i];
        var piece := Strip(pieces[i]);
        if piece == [] {
          continue;
        }
        var fields := Split(piece, {':'});
        if |fields| < 2 {
          continue;
        }
        var port := ParseInt(Strip(fields[1]));
        if port.None? {
          continue;
        }
        nodes := nodes + [NodeAddress(Strip(fields[0]), port.value)];
      }
      assert pieces[..|pieces|] == pieces;
    }
    if nodes == [] {
      nodes := defaults;
    }
  }

  /** Parsing keeps the order of the pieces: the nodes of a concatenation
      are the nodes of each part, one after the other. */
  lemma {:induction false} ParsedNodesAppend(a: seq<string>, b: seq<string>)
    ensures ParsedNodes(a + b) == ParsedNodes(a) + ParsedNodes(b)
    decreases |b|
  {
    if b == [] {
      assert a + b == a;
    } else {
      var b0 := b[..|b| - 1];
      var e := ParseNodeEntry(b[|b| - 1]);
      assert (a + b)[..|a + b| - 1] == a + b0;
      assert (a + b)[|a + b| - 1] == b[|b| - 1];
      ParsedNodesAppend(a, b0);
      assert Keep(ParsedNodes(a) + ParsedNodes(b0), e) == ParsedNodes(a) + Keep(ParsedNodes(b0), e);
    }
  }

  /** Every parsed node comes from one piece that parses to it. */
  lemma {:induction false} ParsedNodesFromPieces(pieces: seq<string>, n: NodeAddress)
    requires n in ParsedNodes(pieces)
    ensures exists i :: 0 <= i < |pieces| && ParseNodeEntry(pieces[i]) == Some(n)
  {
    var init := pieces[..|pieces| - 1];
    if n in ParsedNodes(init) {
      ParsedNodesFromPieces(init, n);
      var i :| 0 <= i < |init| && ParseNodeEntry(init[i]) == Some(n);
      assert pieces[i] == init[i];
    } else {
      assert ParseNodeEntry(pieces[|pieces| - 1]) == Some(n);
    }
  }

  /** A piece without a colon is skipped, whatever else it holds. */
  lemma NoColonSkipped(piece: string)
    requires ':' !in piece
    ensures ParseNodeEntry(piece) == None
  {
    var s := Strip(piece);
    if s != [] {
      forall k | 0 <= k < |s|
        ensures s[k] != ':'
      {
        if s[k] == ':' {
          StripChars(piece, ':');
        }
      }
      SplitWhole(s, {':'});
    }
  }

  /** A host the setting can carry: no separator, no colon, no surrounding
      whitespace (the parser strips it). */
  predicate PlainHost(host: string) {
    && NoneOf(host, Separators + {':'})
    && (host == [] || (!IsSpace(host[0]) && !IsSpace(host[|host| - 1])))
  }

  /** `host:port`, as an operator writes one seed node. */
  function FormatNode(n: NodeAddress): string {
    n.host + ":" + IntToString(n.udpPort)
  }

  function FormatNodes(nodes: seq<NodeAddress>): seq<string> {
    seq(|nodes|, i requires 0 <= i < |nodes| => FormatNode(nodes[i]))
  }

  /** `host:tail` is its own strip when the host is plain and the tail ends
      in a non-space. */
  lemma PieceStrips(host: string, tail: string)
    requires PlainHost(host) && tail != [] && !IsSpace(tail[|tail| - 1])
    ensures Strip(host + ":" + tail) == host + ":" + tail
  {
    PieceEnds(host, tail);
    StripKeeps(host + ":" + tail);
  }

  lemma PieceEnds(host: string, tail: string)
    requires PlainHost(host) && tail != [] && !IsSpace(tail[|tail| - 1])
    ensures var piece := host + ":" + tail; !IsSpace(piece[0]) && !IsSpace(piece[|piece| - 1])
  {
    var piece := host + ":" + tail;
    assert piece[0] == (if host == [] then ':' else host[0]);
    assert piece[|piece| - 1] == tail[|tail| - 1];
  }

  /** `int(str(port).strip()) == port`. */
  lemma PortParses(port: int)
    ensures ParseInt(Strip(IntToString(port))) == Some(port)
  {
    StripKeeps(IntToString(port));
    IntToStringParses(port);
  }

  /** A plain host survives the strip of the first field. */
  lemma HostStrips(host: string)
    requires PlainHost(host)
    ensures Strip(host) == host
  {
    StripKeeps(host);
  }

  /** The colon-separated fields of `host:port:rest`. */
  lemma PieceFields(host: string, port: int, rest: string)
    requires PlainHost(host)
    ensures Split(host + ":" + IntToString(port) + ":" + rest, {':'})
            == [host, IntToString(port)] + Split(rest, {':'})
  {
    var num := IntToString(port);
    assert NoneOf(host, {':'});
    IntToStringNoneOf(port, {':'});
    PieceRegroups(host, num, rest);
    SplitAt(host, ':', num + [':'] + rest, {':'});
    SplitAt(num, ':', rest, {':'});
  }

  lemma PieceRegroups(host: string, num: string, rest: string)
    ensures host + ":" + num + ":" + rest == host + [':'] + (num + [':'] + rest)
  {
  }

  /** A piece `host:port:rest` parses to the host and the port, whatever
      follows the second colon: the strip can only cut whitespace off the end
      of `rest`, and the fields after the second colon are ignored. */
  lemma ExtraFieldsIgnored(host: string, port: int, rest: string)
    requires PlainHost(host)
    ensures ParseNodeEntry(host + ":" + IntToString(port) + ":" + rest) == Some(NodeAddress(host, port))
  {
    var kept := PieceWithRestStrips(host, IntToString(port), rest);
    PieceFields(host, port, kept);
    FieldsNode(host, port, Split(kept, {':'}));
  }

  /** The strip of `host:num:rest` keeps the `host:num:` prefix whole and
      cuts at most trailing whitespace off `rest`. */
  lemma PieceWithRestStrips(host: string, num: string, rest: string) returns (kept: string)
    requires PlainHost(host)
    ensures Strip(host + ":" + num + ":" + rest) == host + ":" + num + ":" + kept
    ensures kept <= rest
  {
    var prefix := host + ":" + num + ":";
    var piece := prefix + rest;
    StripIsSlice(piece);
    var i, j :| SpaceAround(piece, i, j) && Strip(piece) == piece[i..j];
    // the piece opens with the host or the first colon, and the prefix ends
    // with the second colon: neither is whitespace
    assert piece[0] == (if host == [] then ':' else host[0]);
    assert !IsSpace(piece[0]);
    assert i == 0;
    assert piece[|prefix| - 1] == ':';
    assert |prefix| <= j;
    kept := rest[..j - |prefix|];
    assert piece[i..j] == prefix + kept;
  }

  /** A plain host and a printed port as the first two fields give their node. */
  lemma FieldsNode(host: string, port: int, more: seq<string>)
    requires PlainHost(host)
    ensures NodeOfFields([host, IntToString(port)] + more) == Some(NodeAddress(host, port))
  {
    var fields := [host, IntToString(port)] + more;
    assert fields[0] == host && fields[1] == IntToString(port);
    PortParses(port);
    HostStrips(host);
  }

  /** A piece that is its own strip parses as its colon-separated fields. */
  lemma StrippedEntry(piece: string, fields: seq<string>)
    requires piece != [] && Strip(piece) == piece && Split(piece, {':'}) == fields
    ensures ParseNodeEntry(piece) == NodeOfFields(fields)
  {
  }

  /** A piece `host:port` parses back to its node. */
  lemma EntryRoundTrip(n: NodeAddress)
    requires PlainHost(n.host)
    ensures ParseNodeEntry(FormatNode(n)) == Some(n)
  {
    var num := IntToString(n.udpPort);
    PieceStrips(n.host, num);
    FormattedFields(n);
    FieldsNode(n.host, n.udpPort, []);
    assert [n.host, num] + [] == [n.host, num];
    StrippedEntry(FormatNode(n), [n.host, num]);
  }

  /** The colon-separated fields of `host:port`. */
  lemma FormattedFields(n: NodeAddress)
    requires PlainHost(n.host)
    ensures Split(FormatNode(n), {':'}) == [n.host, IntToString(n.udpPort)]
  {
    var num := IntToString(n.udpPort);
    assert NoneOf(n.host, {':'});
    IntToStringNoneOf(n.udpPort, {':'});
    assert FormatNode(n) == n.host + [':'] + num;
    SplitAt(n.host, ':', num, {':'});
    SplitWhole(num, {':'});
  }

  lemma ParsedFormatted(nodes: seq<NodeAddress>)
    requires forall i :: 0 <= i < |nodes| ==> PlainHost(nodes[i].host)
    ensures ParsedNodes(FormatNodes(nodes)) == nodes
  {
    var pieces := FormatNodes(nodes);
    forall i | 0 <= i < |nodes|
      ensures ParseNodeEntry(pieces[i]) == Some(nodes[i])
    {
      EntryRoundTrip(nodes[i]);
    }
    ParsedAll(ParseNodeEntry, pieces, nodes);
  }

  /** Pieces that each parse to a node give those nodes, in order. */
  lemma {:induction false} ParsedAll(parse: string -> Option<NodeAddress>, pieces: seq<string>, nodes: seq<NodeAddress>)
    requires |pieces| == |nodes|
    requires forall i :: 0 <= i < |pieces| ==> parse(pieces[i]) == Some(nodes[i])
    ensures ParsedWith(parse, pieces) == nodes
    decreases |pieces|
  {
    if pieces != [] {
      ParsedAll(parse, pieces[..|pieces| - 1], nodes[..|nodes| - 1]);
    }
  }

  /** A join starts with its first piece. */
  lemma JoinFirst(pieces: seq<string>, c: char)
    requires |pieces| >= 1 && pieces[0] != []
    ensures var s := Join(pieces, c); s != [] && s[0] == pieces[0][0]
  {
  }

  /** A join ends with its last piece. */
  lemma {:induction false} JoinLast(pieces: seq<string>, c: char)
    requires |pieces| >= 1 && pieces[|pieces| - 1] != []
    ensures var s := Join(pieces, c);
      s != [] && s[|s| - 1] == pieces[|pieces| - 1][|pieces[|pieces| - 1]| - 1]
    decreases |pieces|
  {
    if |pieces| > 1 {
      JoinLast(pieces[1..], c);
    }
  }

  /** Seed nodes written as `host:port` and joined with commas read back as
      exactly those nodes, in that order; an empty list gives the defaults. */
  lemma KnownNodesRoundTrip(nodes: seq<NodeAddress>, defaults: seq<NodeAddress>)
    requires forall i :: 0 <= i < |nodes| ==> PlainHost(nodes[i].host)
    ensures KnownNodesOf(Join(FormatNodes(nodes), ','), defaults) == if nodes == [] then defaults else nodes
  {
    var pieces := FormatNodes(nodes);
    var s := Join(pieces, ',');
    if nodes == [] {
      StripKeeps(s);
    } else {
      FormattedPieces(nodes);
      ParsedFormatted(nodes);
    }
  }

  /** The pieces of a comma-joined list of `host:port` are those entries. */
  lemma FormattedPieces(nodes: seq<NodeAddress>)
    requires nodes != []
    requires forall i :: 0 <= i < |nodes| ==> PlainHost(nodes[i].host)
    ensures NodePieces(Join(FormatNodes(nodes), ',')) == FormatNodes(nodes)
  {
    var pieces := FormatNodes(nodes);
    var s := Join(pieces, ',');
    forall i | 0 <= i < |pieces|
      ensures NoneOf(pieces[i], Separators)
    {
      NoSeparatorInPiece(nodes[i]);
    }
    JoinedStrips(nodes);
    SplitJoin(pieces, ',', Separators);
  }

  lemma JoinedStrips(nodes: seq<NodeAddress>)
    requires nodes != []
    requires forall i :: 0 <= i < |nodes| ==> PlainHost(nodes[i].host)
    ensures var s := Join(FormatNodes(nodes), ','); s != [] && Strip(s) == s
  {
    JoinedEnds(nodes);
    StripKeeps(Join(FormatNodes(nodes), ','));
  }

  /** A comma-joined list of `host:port` starts with a host or a colon and
      ends with a digit. */
  lemma JoinedEnds(nodes: seq<NodeAddress>)
    requires nodes != []
    requires forall i :: 0 <= i < |nodes| ==> PlainHost(nodes[i].host)
    ensures var s := Join(FormatNodes(nodes), ','); s != [] && !IsSpace(s[0]) && !IsSpace(s[|s| - 1])
  {
    var pieces := FormatNodes(nodes);
    FormatNodeEnds(nodes[0]);
    FormatNodeEnds(nodes[|nodes| - 1]);
    JoinFirst(pieces, ',');
    JoinLast(pieces, ',');
  }

  lemma FormatNodeEnds(n: NodeAddress)
    requires PlainHost(n.host)
    ensures var p := FormatNode(n); p != [] && !IsSpace(p[0]) && !IsSpace(p[|p| - 1])
  {
    PieceEnds(n.host, IntToString(n.udpPort));
  }

  lemma NoSeparatorInPiece(n: NodeAddress)
    requires PlainHost(n.host)
    ensures NoneOf(FormatNode(n), Separators)
  {
    var num := IntToString(n.udpPort);
    IntToStringNoneOf(n.udpPort, Separators);
    forall k | 0 <= k < |FormatNode(n)|
      ensures FormatNode(n)[k] !in Separators
    {
      if k > |n.host| {
        assert FormatNode(n)[k] == num[k - |n.host| - 1];
      }
    }
  }

  // ---------------------------------------------------------------------
  // Attached layers

  /** What the layer loop of `_on_connected` gets through: the ids it
      connects, in order, and the first piece `int` rejects, if any (the
      loop stops there, having connected the ids before it). */
  datatype LayerScan = LayerScan(ids: seq<int>, bad: Option<string>)

  /** What the loop makes of one piece: `layer_id.strip()` is empty, or
      `int(layer_id.strip())` raises, or it gives a layer id. */
  datatype PieceKind = Blank | NotAnId | LayerId(id: int)

  function ClassifyPiece(piece: string): PieceKind {
    var s := Strip(piece);
    if s == [] then Blank
    else match ParseInt(s)
      case None => NotAnId
      case Some(id) => LayerId(id)
  }

  /** The layer loop over `pieces`. */
  function ScanLayers(pieces: seq<string>): LayerScan {
    ScanWith(ClassifyPiece, pieces)
  }

  /** The layer loop with each piece judged by `classify`; the lemmas about
      the loop's shape hold whatever the judgement. */
  function ScanWith(classify: string -> PieceKind, pieces: seq<string>): LayerScan {
    if pieces == [] then LayerScan([], None)
    else
      match classify(pieces[0])
      case Blank => ScanWith(classify, pieces[1..])
      case NotAnId => LayerScan([], Some(pieces[0]))
      case LayerId(id) =>
        var rest := ScanWith(classify, pieces[1..]);
        LayerScan([id] + rest.ids, rest.bad)
  }

  /** The pieces of the `attached-layers` setting: none when it is empty. */
  function LayerPieces(setting: string): seq<string> {
    if setting == [] then [] else Split(setting, {','})
  }

  function DecimalIds(ids: seq<int>): seq<string> {
    seq(|ids|, i requires 0 <= i < |ids| => IntToString(ids[i]))
  }

  /** Layer ids written in decimal and joined with commas connect exactly
      those layers, in that order, and nothing fails. */
  lemma LayersRoundTrip(ids: seq<int>)
    ensures ScanLayers(LayerPieces(Join(DecimalIds(ids), ','))) == LayerScan(ids, None)
  {
    if ids == [] {
      return;
    }
    var pieces := DecimalIds(ids);
    forall i | 0 <= i < |pieces|
      ensures NoneOf(pieces[i], {','})
    {
      IntToStringNoneOf(ids[i], {','});
    }
    JoinFirst(pieces, ',');
    SplitJoin(pieces, ',', {','});
    ScanDecimal(ids);
  }

  lemma ScanDecimal(ids: seq<int>)
    ensures ScanLayers(DecimalIds(ids)) == LayerScan(ids, None)
  {
    var pieces := DecimalIds(ids);
    forall i | 0 <= i < |ids|
      ensures ClassifyPiece(pieces[i]) == LayerId(ids[i])
    {
      DecimalPiece(ids[i]);
    }
    ScanAllIds(ClassifyPiece, pieces, ids);
  }

  /** Pieces that each give a layer id connect those ids, in order. */
  lemma {:induction false} ScanAllIds(classify: string -> PieceKind, pieces: seq<string>, ids: seq<int>)
    requires |pieces| == |ids|
    requires forall i :: 0 <= i < |pieces| ==> classify(pieces[i]) == LayerId(ids[i])
    ensures ScanWith(classify, pieces) == LayerScan(ids, None)
    decreases |pieces|
  {
    if pieces != [] {
      ScanAllIds(classify, pieces[1..], ids[1..]);
      assert [ids[0]] + ids[1..] == ids;
    }
  }

  /** A printed id is a layer id. */
  lemma DecimalPiece(id: int)
    ensures ClassifyPiece(IntToString(id)) == LayerId(id)
  {
    StripKeeps(IntToString(id));
    IntToStringParses(id);
  }

  /** One piece of the scan: a blank piece is passed over, a bad one stops
      it, a good one puts its id in front of the rest. */
  lemma ScanStep(classify: string -> PieceKind, pieces: seq<string>, i: nat)
    requires i < |pieces|
    ensures var here := ScanWith(classify, pieces[i..]);
      var next := ScanWith(classify, pieces[i + 1..]);
      match classify(pieces[i])
      case Blank => here == next
      case NotAnId => here == LayerScan([], Some(pieces[i]))
      case LayerId(id) => here == LayerScan([id] + next.ids, next.bad)
  {
    assert pieces[i..][0] == pieces[i] && pieces[i..][1..] == pieces[i + 1..];
  }

  /** The loop has gone through `pieces[..i]`, connecting `issued`, and what
      is left of the scan is the scan of the rest. */
  predicate ScannedUpTo(classify: string -> PieceKind, pieces: seq<string>, i: nat, issued: seq<int>)
    requires i <= |pieces|
  {
    var rest := ScanWith(classify, pieces[i..]);
    ScanWith(classify, pieces) == LayerScan(issued + rest.ids, rest.bad)
  }

  /** One turn of the loop keeps `ScannedUpTo`, or ends the scan at a bad piece. */
  lemma ScanAdvance(classify: string -> PieceKind, pieces: seq<string>, i: nat, issued: seq<int>)
    requires i < |pieces| && ScannedUpTo(classify, pieces, i, issued)
    ensures match classify(pieces[i])
      case Blank => ScannedUpTo(classify, pieces, i + 1, issued)
      case NotAnId => ScanWith(classify, pieces) == LayerScan(issued, Some(pieces[i]))
      case LayerId(id) => ScannedUpTo(classify, pieces, i + 1, issued + [id])
  {
    ScanStep(classify, pieces, i);
    var next := ScanWith(classify, pieces[i + 1..]);
    if classify(pieces[i]).LayerId? {
      assert issued + ([classify(pieces[i]).id] + next.ids) == issued + [classify(pieces[i]).id] + next.ids;
    }
  }

  /** The ids connected before a failure are those of the well-formed pieces
      in front of it; what comes after the bad piece is never looked at. */
  lemma ScanStopsAtBadPiece(a: seq<string>, bad: string, b: seq<string>)
    requires ScanLayers(a).bad == None
    requires ClassifyPiece(bad) == NotAnId
    ensures ScanLayers(a + [bad] + b) == LayerScan(ScanLayers(a).ids, Some(bad))
  {
    ScanStopsWith(ClassifyPiece, a, bad, b);
  }

  lemma {:induction false} ScanStopsWith(classify: string -> PieceKind, a: seq<string>, bad: string, b: seq<string>)
    requires ScanWith(classify, a).bad == None
    requires classify(bad) == NotAnId
    ensures ScanWith(classify, a + [bad] + b) == LayerScan(ScanWith(classify, a).ids, Some(bad))
    decreases |a|
  {
    var all := a + [bad] + b;
    ScanStep(classify, all, 0);
    assert all[0..] == all;
    if a != [] {
      ScanStep(classify, a, 0);
      assert a[0..] == a && all[0] == a[0] && all[1..] == a[1..] + [bad] + b;
      ScanStopsWith(classify, a[1..], bad, b);
    }
  }

  /** Blank pieces (an empty setting, doubled or trailing commas, spaces)
      connect nothing and fail nothing. */
  lemma {:induction false} BlankPiecesSkipped(pieces: seq<string>)
    requires forall i :: 0 <= i < |pieces| ==> ClassifyPiece(pieces[i]) == Blank
    ensures ScanLayers(pieces) == LayerScan([], None)
    decreases |pieces|
  {
    if pieces != [] {
      BlankPiecesSkipped(pieces[1..]);
    }
  }

  // ---------------------------------------------------------------------
  // The start-up guard

  /** The failure an errback carries: the primary connect's own failure, or
      the `ValueError` of `int` on a piece of `attached-layers`. */
  datatype ConnectError = NetworkError(reason: string) | InvalidLayerId(piece: string)

  /** What `starting_deferred` is fired with. */
  datatype StartOutcome = Started | StartFailed(error: ConnectError)

  /** The guard's state: the Deferred `start` handed out and that has not
      fired yet (`starting_deferred`, or `None`), and every fired one with its outcome. */
  datatype Guard = Guard(starting: Option<nat>, fired: map<nat, StartOutcome>)

  /** `if self.starting_deferred: fire it; self.starting_deferred = None`.
      Fires the pending Deferred, if there is one, and never changes an
      earlier outcome. */
  function Fire(g: Guard, o: StartOutcome): (r: Guard)
    ensures r.starting == None
    ensures g.starting.Some? ==> r.fired.Keys == g.fired.Keys + {g.starting.value} && r.fired[g.starting.value] == o
    ensures g.starting.None? ==> r == g
    ensures forall d :: d in g.fired && (g.starting.None? || d != g.starting.value) ==> d in r.fired && r.fired[d] == g.fired[d]
  {
    match g.starting
    case None => g
    case Some(d) => Guard(None, g.fired[d := o])
  }

  /** Resolve once: after the pending Deferred has fired, every further
      handler call changes nothing, whatever it would fire with. */
  lemma FireOnce(g: Guard, o1: StartOutcome, o2: StartOutcome)
    ensures Fire(Fire(g, o1), o2) == Fire(g, o1)
  {
  }

  class DhtService {
    /** `self.starting_deferred`, as the number of the Deferred it holds. */
    var starting: Option<nat>
    /** The Deferreds fired so far, with what they were fired with. */
    var fired: map<nat, StartOutcome>
    /** The next Deferred `start` hands out. */
    var nextDeferred: nat
    /** The layer ids of the `dht_service.connect` calls so far, in order. */
    var connects: seq<int>

    function State(): Guard
      reads this
    {
      Guard(starting, fired)
    }

    /** A pending Deferred was handed out and has not fired; every fired one
        was handed out. */
    ghost predicate Valid()
      reads this
    {
      && (starting.Some? ==> starting.value < nextDeferred && starting.value !in fired)
      && (forall d :: d in fired ==> d < nextDeferred)
    }

    constructor ()
      ensures Valid()
      ensures starting == None && fired == map[] && nextDeferred == 0 && connects == []
    {
      starting := None;
      fired := map[];
      nextDeferred := 0;
      connects := [];
    }

    /** `start`: a new pending Deferred, and the connect of layer 0. */
    method Start() returns (d: nat)
      requires Valid()
      modifies this
      ensures Valid()
      ensures d == old(nextDeferred) && d !in fired
      ensures starting == Some(d) && nextDeferred == d + 1 && fired == old(fired)
      ensures connects == old(connects) + [0]
    {
      d := nextDeferred;
      starting := Some(d);
      nextDeferred := nextDeferred + 1;
      connects := connects + [0];
    }

    /** `_on_connected`: one connect per well-formed layer id of the
        `attached-layers` setting, in order. With no extra layer the start
        succeeds now; with some, it waits for them (`_on_layers_attached`).
        A piece that is not an integer raises out of the callback, so the
        start fails through `_on_connect_failed` with the layers connected
        before it still in flight. */
    method OnConnected(attachedLayers: string)
      requires Valid()
      modifies this
      ensures Valid()
      ensures nextDeferred == old(nextDeferred)
      ensures var scan := ScanLayers(LayerPieces(attachedLayers));
        && connects == old(connects) + scan.ids
        && State() == (match scan.bad
             case Some(piece) => Fire(old(State()), StartFailed(InvalidLayerId(piece)))
             case None => if scan.ids == [] then Fire(old(State()), Started) else old(State()))
    {
      var issued, bad := ConnectLayers(LayerPieces(attachedLayers));
      if bad.Some? {
        OnConnectFailed(InvalidLayerId(bad.value));
      } else if issued == [] {
        Resolve(Started);
      }
    }

    /** The loop of `_on_connected`: connect each non-blank piece as a layer
        id, in order, until a piece `int` rejects. */
    method ConnectLayers(pieces: seq<string>) returns (issued: seq<int>, bad: Option<string>)
      modifies this`connects
      ensures LayerScan(issued, bad) == ScanLayers(pieces)
      ensures connects == old(connects) + issued
    {
      issued := [];
      var i := 0;
      assert pieces[0..] == pieces;
      while i < |pieces|
        invariant 0 <= i <= |pieces|
        invariant connects == old(connects) + issued
        invariant ScannedUpTo(ClassifyPiece, pieces, i, issued)
      {
        ScanAdvance(ClassifyPiece, pieces, i, issued);
        var piece := Strip(pieces[i]);
        if piece != [] {
          var id := ParseInt(piece);
          if id.None? {
            return issued, Some(pieces[i]);
          }
          connects := connects + [id.value];
          issued := issued + [id.value];
        }
        i := i + 1;
      }
      assert pieces[i..] == [];
      return issued, None;
    }

    /** `_on_layers_attached`: the extra layers are done, the start succeeds.
        (`DeferredList` with its default arguments calls back even when some
        of the layers failed.) */
    method OnLayersAttached()
      requires Valid()
      modifies this
      ensures Valid()
      ensures State() == Fire(old(State()), Started)
      ensures nextDeferred == old(nextDeferred) && connects == old(connects)
    {
      Resolve(Started);
    }

    /** `_on_connect_failed`: the start fails with `err`. */
    method OnConnectFailed(err: ConnectError)
      requires Valid()
      modifies this
      ensures Valid()
      ensures State() == Fire(old(State()), StartFailed(err))
      ensures nextDeferred == old(nextDeferred) && connects == old(connects)
    {
      Resolve(StartFailed(err));
    }

    /** The guard the three handlers share: fire `starting_deferred` if it
        is set, then clear it. */
    method Resolve(o: StartOutcome)
      requires Valid()
      modifies this`starting, this`fired
      ensures Valid()
      ensures State() == Fire(old(State()), o)
    {
      if starting.Some? {
        fired := fired[starting.value := o];
        starting := None;
      }
    }
  }
}
