/** The protocol registry of the C++ SDK: the five protocols a client can
    speak (QUIC, TCP and HTTP, the last two also over TLS), each with its
    default port, transport, TLS requirement and message encoding, and the
    provider that enumerates them, looks one up by name and tells whether a
    name is supported. */
module Net {
  import opened Base

  const DefaultHttpPort: uint16 := 3000
  const DefaultTcpPort: uint16 := 8090
  const DefaultQuicPort: uint16 := 8080

  const QuicProtocol: string := "quic"
  const TcpProtocol: string := "tcp"
  const TcpTlsProtocol: string := "tcp+tls"
  const HttpProtocol: string := "http"
  const HttpTlsProtocol: string := "http+tls"

  /** The names of the supported protocols. */
  const ProtocolNames: set<string> :=
    {QuicProtocol, TcpProtocol, TcpTlsProtocol, HttpProtocol, HttpTlsProtocol}

  datatype Transport = Quic | Tcp | Http

  datatype MessageEncoding = Binary | Text

  datatype ProtocolDefinition = ProtocolDefinition(
    name: string,
    defaultPort: uint16,
    transport: Transport,
    tlsRequired: bool,
    messageEncoding: MessageEncoding)

  datatype ProtocolError = UnsupportedProtocol(protocol: string)

  datatype Result<T> = Ok(value: T) | Err(error: ProtocolError)

  /** The built-in table, in declaration order: five definitions, none of
      which shares its name with another. */
  function SupportedProtocols(): (t: seq<ProtocolDefinition>)
    ensures |t| == 5 && DistinctNames(t)
  {
    [ ProtocolDefinition(QuicProtocol, DefaultQuicPort, Quic, true, Binary),
      ProtocolDefinition(TcpProtocol, DefaultTcpPort, Tcp, false, Binary),
      ProtocolDefinition(TcpTlsProtocol, DefaultTcpPort, Tcp, true, Binary),
      ProtocolDefinition(HttpProtocol, DefaultHttpPort, Http, false, Text),
      ProtocolDefinition(HttpTlsProtocol, DefaultHttpPort, Http, true, Text) ]
  }

  /** No two definitions of `t` share a name. */
  ghost predicate DistinctNames(t: seq<ProtocolDefinition>)
  {
    forall i, j :: 0 <= i < j < |t| ==> t[i].name != t[j].name
  }

  /** The names of the definitions of `t`. */
  ghost function NamesOf(t: seq<ProtocolDefinition>): set<string>
  {
    set i | 0 <= i < |t| :: t[i].name
  }

  /** The name-keyed index of a table, filled entry by entry from the front,
      as the provider's constructor fills its lookup map. Every entry is
      filed under its own name, and there are never more keys than entries. */
  function Index(t: seq<ProtocolDefinition>): (m: map<string, ProtocolDefinition>)
    ensures forall p :: p in m ==> m[p].name == p
    ensures |m| <= |t|
  {
    if t == [] then map[] else Index(t[..|t| - 1])[t[|t| - 1].name := t[|t| - 1]]
  }

  /** Every entry of the index is a definition of the table, filed under its own name. */
  lemma {:induction false} IndexSound(t: seq<ProtocolDefinition>)
    ensures forall p :: p in Index(t) ==> Index(t)[p].name == p && Index(t)[p] in t
  {
    if t != [] {
      var front := t[..|t| - 1];
      IndexSound(front);
      forall p | p in Index(t)
        ensures Index(t)[p].name == p && Index(t)[p] in t
      {
        if p != t[|t| - 1].name {
          assert Index(t)[p] == Index(front)[p];
          assert Index(front)[p] in front;
        }
      }
    }
  }

  /** The index has exactly the table's names as keys. */
  lemma {:induction false} IndexKeys(t: seq<ProtocolDefinition>)
    ensures Index(t).Keys == NamesOf(t)
  {
    if t != [] {
      var front := t[..|t| - 1];
      IndexKeys(front);
      forall p | p in NamesOf(t)
        ensures p in Index(t)
      {
        var i :| 0 <= i < |t| && t[i].name == p;
        if i < |t| - 1 {
          assert front[i].name == p;
        }
      }
      forall p | p in Index(t)
        ensures p in NamesOf(t)
      {
        if p != t[|t| - 1].name {
          var i :| 0 <= i < |front| && front[i].name == p;
          assert t[i].name == p;
        }
      }
    }
  }

  /** When names are distinct, no definition is lost: each is found under its name. */
  lemma {:induction false} IndexComplete(t: seq<ProtocolDefinition>)
    requires DistinctNames(t)
    ensures forall i :: 0 <= i < |t| ==> t[i].name in Index(t) && Index(t)[t[i].name] == t[i]
  {
    if t != [] {
      var front := t[..|t| - 1];
      assert DistinctNames(front) by {
        forall i, j | 0 <= i < j < |front|
          ensures front[i].name != front[j].name
        {
          assert front[i] == t[i] && front[j] == t[j];
        }
      }
      IndexComplete(front);
      forall i | 0 <= i < |t|
        ensures t[i].name in Index(t) && Index(t)[t[i].name] == t[i]
      {
        if i < |t| - 1 {
          assert front[i] == t[i];
          assert t[i].name != t[|t| - 1].name;
        }
      }
    }
  }

  /** The table lists quic, tcp, tcp+tls, http and http+tls, in that order. */
  lemma SupportedProtocolsOrder()
    ensures |SupportedProtocols()| == 5
    ensures SupportedProtocols()[0].name == QuicProtocol
    ensures SupportedProtocols()[1].name == TcpProtocol
    ensures SupportedProtocols()[2].name == TcpTlsProtocol
    ensures SupportedProtocols()[3].name == HttpProtocol
    ensures SupportedProtocols()[4].name == HttpTlsProtocol
  {
  }

  /** The table's names are pairwise distinct and are exactly the five protocol names. */
  lemma SupportedNamesDistinct()
    ensures DistinctNames(SupportedProtocols())
    ensures NamesOf(SupportedProtocols()) == ProtocolNames
  {
    var t := SupportedProtocols();
    forall p | p in ProtocolNames
      ensures p in NamesOf(t)
    {
      if p == QuicProtocol { assert t[0].name == p; }
      else if p == TcpProtocol { assert t[1].name == p; }
      else if p == TcpTlsProtocol { assert t[2].name == p; }
      else if p == HttpProtocol { assert t[3].name == p; }
      else { assert t[4].name == p; }
    }
  }

  /** The lookup built from the table has exactly five keys. */
  lemma LookupHasFiveKeys()
    ensures Index(SupportedProtocols()).Keys == ProtocolNames
    ensures |Index(SupportedProtocols())| == 5
  {
    SupportedNamesDistinct();
    IndexKeys(SupportedProtocols());
    assert |ProtocolNames| == 5 by {
      var s0: set<string> := {};
      assert |s0 + {QuicProtocol}| == 1;
      assert |s0 + {QuicProtocol} + {TcpProtocol}| == 2;
      assert |s0 + {QuicProtocol} + {TcpProtocol} + {TcpTlsProtocol}| == 3;
      assert |s0 + {QuicProtocol} + {TcpProtocol} + {TcpTlsProtocol} + {HttpProtocol}| == 4;
      assert ProtocolNames == s0 + {QuicProtocol} + {TcpProtocol} + {TcpTlsProtocol} + {HttpProtocol} + {HttpTlsProtocol};
    }
    assert |Index(SupportedProtocols()).Keys| == |Index(SupportedProtocols())|;
  }

  /** The default port a transport uses. */
  function DefaultPortOf(transport: Transport): uint16
  {
    match transport
    case Quic => DefaultQuicPort
    case Tcp => DefaultTcpPort
    case Http => DefaultHttpPort
  }

  /** Each definition's default port is nonzero and is its transport's port:
      8080 for QUIC, 8090 for TCP, 3000 for HTTP. quic runs over QUIC, tcp and
      tcp+tls over TCP, http and http+tls over HTTP. */
  lemma DefaultPorts()
    ensures forall d :: d in SupportedProtocols() ==> d.defaultPort != 0
    ensures forall d :: d in SupportedProtocols() ==> d.defaultPort == DefaultPortOf(d.transport)
    ensures forall d :: d in SupportedProtocols() && d.name == QuicProtocol ==>
      d.transport == Quic && d.defaultPort == 8080
    ensures forall d :: d in SupportedProtocols() && d.name in {TcpProtocol, TcpTlsProtocol} ==>
      d.transport == Tcp && d.defaultPort == 8090
    ensures forall d :: d in SupportedProtocols() && d.name in {HttpProtocol, HttpTlsProtocol} ==>
      d.transport == Http && d.defaultPort == 3000
  {
  }

  /** Exactly quic, tcp+tls and http+tls require TLS. */
  lemma TlsRequiredExactly()
    ensures forall d :: d in SupportedProtocols() ==>
      (d.tlsRequired <==> d.name in {QuicProtocol, TcpTlsProtocol, HttpTlsProtocol})
  {
  }

  /** Messages are text exactly over HTTP and binary over QUIC and TCP. */
  lemma EncodingFollowsTransport()
    ensures forall d :: d in SupportedProtocols() ==>
      (d.messageEncoding == Text <==> d.transport == Http)
  {
  }

  /** Each "+tls" variant is its plain variant with TLS switched on: same port,
      transport and encoding. */
  lemma TlsVariantsMirrorPlain()
    ensures SupportedProtocols()[2] == SupportedProtocols()[1].(name := TcpTlsProtocol, tlsRequired := true)
    ensures SupportedProtocols()[4] == SupportedProtocols()[3].(name := HttpTlsProtocol, tlsRequired := true)
    ensures !SupportedProtocols()[1].tlsRequired && !SupportedProtocols()[3].tlsRequired
  {
  }

  /** The provider of the Iggy protocols: the fixed table and the lookup map
      the constructor builds from it. All queries are read-only. */
  class IggyProtocolProvider {
    const supportedProtocols: seq<ProtocolDefinition> := SupportedProtocols()
    var supportedProtocolLookup: map<string, ProtocolDefinition>

    ghost predicate Valid()
      reads this
    {
      supportedProtocolLookup == Index(supportedProtocols)
    }

    /** Files every definition of the table under its name. */
    constructor ()
      ensures Valid()
      ensures supportedProtocolLookup.Keys == ProtocolNames
      ensures forall i :: 0 <= i < |supportedProtocols| ==>
        supportedProtocolLookup[supportedProtocols[i].name] == supportedProtocols[i]
    {
      new;
      supportedProtocolLookup := map[];
      var i := 0;
      while i < |supportedProtocols|
        invariant 0 <= i <= |supportedProtocols|
        invariant supportedProtocolLookup == Index(supportedProtocols[..i])
      {
        var definition := supportedProtocols[i];
        assert supportedProtocols[..i + 1][..i] == supportedProtocols[..i];
        supportedProtocolLookup := supportedProtocolLookup[definition.name := definition];
        i := i + 1;
      }
      assert supportedProtocols[..i] == supportedProtocols;
      LookupHasFiveKeys();
      SupportedNamesDistinct();
      IndexComplete(supportedProtocols);
    }

    /** All definitions, in declaration order: five, with distinct names. */
    function GetSupportedProtocols(): (r: seq<ProtocolDefinition>)
      ensures |r| == 5 && DistinctNames(r)
      ensures NamesOf(r) == ProtocolNames
      ensures r == SupportedProtocols()
    {
      SupportedNamesDistinct();
      supportedProtocols
    }

    /** Whether `protocol` is one of the five names, compared exactly. */
    function IsSupported(protocol: string): (b: bool)
      reads this
      requires Valid()
      ensures b <==> protocol in ProtocolNames
      ensures b <==> exists i :: 0 <= i < |supportedProtocols| && supportedProtocols[i].name == protocol
    {
      SupportedNamesDistinct();
      IndexKeys(supportedProtocols);
      protocol in supportedProtocolLookup
    }

    /** The definition named `protocol`, or UnsupportedProtocol when there is none. */
    function GetProtocolDefinition(protocol: string): (r: Result<ProtocolDefinition>)
      reads this
      requires Valid()
      ensures r.Ok? <==> IsSupported(protocol)
      ensures r.Err? ==> r.error == UnsupportedProtocol(protocol)
      ensures forall i :: 0 <= i < |supportedProtocols| && supportedProtocols[i].name == protocol ==>
        r == Ok(supportedProtocols[i])
    {
      SupportedNamesDistinct();
      IndexKeys(supportedProtocols);
      IndexComplete(supportedProtocols);
      if protocol in supportedProtocolLookup then
        Ok(supportedProtocolLookup[protocol])
      else
        Err(UnsupportedProtocol(protocol))
    }
  }

  /** Unknown, empty and differently cased names are not supported, and
      looking them up fails. */
  lemma UnsupportedNames(provider: IggyProtocolProvider)
    requires provider.Valid()
    ensures !provider.IsSupported("ftp") && !provider.IsSupported("") && !provider.IsSupported("TCP")
    ensures provider.GetProtocolDefinition("TCP") == Err(UnsupportedProtocol("TCP"))
  {
  }
}
