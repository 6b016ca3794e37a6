/**
 * The peer records of the version-0 REST API and their conversion from and
 * to the domain records, and the statistics map built from peer statuses.
 *
 * The option, slice and address converters and the status predicates
 * live in helpers outside this model; they arrive bundled in `Helpers`
 * and the conversions here only route fields through them.
 */
module ApiModelPeer {
  import opened Wrappers
  import D = DomainPeer
  import DomainCrypto
  import ExpiryDateJson

  type Time = ExpiryDateJson.Time

  /** A configuration value as the API exposes it. */
  datatype ConfigOption<T> = ConfigOption(Value: T, Overridable: bool)

  /** The API peer; `ExpiresAt` is the time its `ExpiryDate` wraps. */
  datatype Peer = Peer(
    Identifier: string,
    DisplayName: string,
    UserIdentifier: string,
    InterfaceIdentifier: string,
    Disabled: bool,
    DisabledReason: string,
    ExpiresAt: Option<Time>,
    Notes: string,
    Endpoint: ConfigOption<string>,
    EndpointPublicKey: ConfigOption<string>,
    AllowedIPs: ConfigOption<seq<string>>,
    ExtraAllowedIPs: seq<string>,
    PresharedKey: string,
    PersistentKeepalive: ConfigOption<int>,
    PrivateKey: string,
    PublicKey: string,
    Mode: string,
    Addresses: seq<string>,
    CheckAliveAddress: string,
    Dns: ConfigOption<seq<string>>,
    DnsSearch: ConfigOption<seq<string>>,
    Mtu: ConfigOption<int>,
    FirewallMark: ConfigOption<int>,
    RoutingTable: ConfigOption<string>,
    PreUp: ConfigOption<string>,
    PostUp: ConfigOption<string>,
    PreDown: ConfigOption<string>,
    PostDown: ConfigOption<string>)

  /** The helpers the conversions call. */
  datatype Helpers = Helpers(
    StringConfigOptionFromDomain: D.ConfigOption<string> -> ConfigOption<string>,
    StringSliceConfigOptionFromDomain: D.ConfigOption<string> -> ConfigOption<seq<string>>,
    IntConfigOptionFromDomain: D.ConfigOption<int> -> ConfigOption<int>,
    Int32ConfigOptionFromDomain: D.ConfigOption<int> -> ConfigOption<int>,
    StringConfigOptionToDomain: ConfigOption<string> -> D.ConfigOption<string>,
    StringSliceConfigOptionToDomain: ConfigOption<seq<string>> -> D.ConfigOption<string>,
    IntConfigOptionToDomain: ConfigOption<int> -> D.ConfigOption<int>,
    Int32ConfigOptionToDomain: ConfigOption<int> -> D.ConfigOption<int>,
    SliceString: string -> seq<string>,
    SliceToString: seq<string> -> string,
    CidrsToStringSlice: seq<D.Cidr> -> seq<string>,
    CidrsFromArray: seq<string> -> seq<D.Cidr>,   // its error is discarded by the caller
    IsDisabled: D.Peer -> bool)

  /** `NewPeer`: copies a domain peer field by field into the API form. */
  function NewPeer(src: D.Peer, h: Helpers): (r: Peer)
    ensures r.Identifier == src.Identifier && r.DisplayName == src.DisplayName
    ensures r.UserIdentifier == src.UserIdentifier && r.InterfaceIdentifier == src.InterfaceIdentifier
    ensures r.Disabled == h.IsDisabled(src) && r.DisabledReason == src.DisabledReason
    ensures r.ExpiresAt == src.ExpiresAt && r.Notes == src.Notes && r.PresharedKey == src.PresharedKey
    ensures r.PrivateKey == src.Interface.KeyPair.PrivateKey && r.PublicKey == src.Interface.KeyPair.PublicKey
    ensures r.Mode == src.Interface.Type && r.CheckAliveAddress == src.Interface.CheckAliveAddress
  {
    Peer(
      Identifier := src.Identifier,
      DisplayName := src.DisplayName,
      UserIdentifier := src.UserIdentifier,
      InterfaceIdentifier := src.InterfaceIdentifier,
      Disabled := h.IsDisabled(src),
      DisabledReason := src.DisabledReason,
      ExpiresAt := src.ExpiresAt,
      Notes := src.Notes,
      Endpoint := h.StringConfigOptionFromDomain(src.Endpoint),
      EndpointPublicKey := h.StringConfigOptionFromDomain(src.EndpointPublicKey),
      AllowedIPs := h.StringSliceConfigOptionFromDomain(src.AllowedIPsStr),
      ExtraAllowedIPs := h.SliceString(src.ExtraAllowedIPsStr),
      PresharedKey := src.PresharedKey,
      PersistentKeepalive := h.IntConfigOptionFromDomain(src.PersistentKeepalive),
      PrivateKey := src.Interface.KeyPair.PrivateKey,
      PublicKey := src.Interface.KeyPair.PublicKey,
      Mode := src.Interface.Type,
      Addresses := h.CidrsToStringSlice(src.Interface.Addresses),
      CheckAliveAddress := src.Interface.CheckAliveAddress,
      Dns := h.StringSliceConfigOptionFromDomain(src.Interface.DnsStr),
      DnsSearch := h.StringSliceConfigOptionFromDomain(src.Interface.DnsSearchStr),
      Mtu := h.IntConfigOptionFromDomain(src.Interface.Mtu),
      FirewallMark := h.Int32ConfigOptionFromDomain(src.Interface.FirewallMark),
      RoutingTable := h.StringConfigOptionFromDomain(src.Interface.RoutingTable),
      PreUp := h.StringConfigOptionFromDomain(src.Interface.PreUp),
      PostUp := h.StringConfigOptionFromDomain(src.Interface.PostUp),
      PreDown := h.StringConfigOptionFromDomain(src.Interface.PreDown),
      PostDown := h.StringConfigOptionFromDomain(src.Interface.PostDown))
  }

  /** The zero `Peer` that `make` puts in every slot before the loop fills it. */
  const ZeroOption := ConfigOption("", false)
  const ZeroPeer := Peer(
    "", "", "", "", false, "", None, "", ZeroOption, ZeroOption, ConfigOption([], false), [], "",
    ConfigOption(0, false), "", "", "", [], "", ConfigOption([], false), ConfigOption([], false),
    ConfigOption(0, false), ConfigOption(0, false), ZeroOption, ZeroOption, ZeroOption, ZeroOption, ZeroOption)

  /** `NewPeers`: one API peer per domain peer, in the same order. */
  method NewPeers(src: seq<D.Peer>, h: Helpers) returns (results: seq<Peer>)
    ensures |results| == |src|
    ensures forall i :: 0 <= i < |src| ==> results[i] == NewPeer(src[i], h)
  {
    results := seq(|src|, _ => ZeroPeer);
    for i := 0 to |src|
      invariant |results| == |src|
      invariant forall j :: 0 <= j < i ==> results[j] == NewPeer(src[j], h)
    {
      results := results[i := NewPeer(src[i], h)];
    }
  }

  /**
   * `NewDomainPeer`: copies an API peer into the domain form; `now` is the
   * clock reading, recorded as the disabling time of a disabled peer.
   */
  function NewDomainPeer(src: Peer, now: Time, h: Helpers): (res: D.Peer)
    ensures res.Disabled.Some? <==> src.Disabled
    ensures src.Disabled ==> res.Disabled == Some(now)
  {
    var cidrs := h.CidrsFromArray(src.Addresses);
    var res := D.Peer(
      Endpoint := h.StringConfigOptionToDomain(src.Endpoint),
      EndpointPublicKey := h.StringConfigOptionToDomain(src.EndpointPublicKey),
      AllowedIPsStr := h.StringSliceConfigOptionToDomain(src.AllowedIPs),
      ExtraAllowedIPsStr := h.SliceToString(src.ExtraAllowedIPs),
      PresharedKey := src.PresharedKey,
      PersistentKeepalive := h.IntConfigOptionToDomain(src.PersistentKeepalive),
      DisplayName := src.DisplayName,
      Identifier := src.Identifier,
      UserIdentifier := src.UserIdentifier,
      InterfaceIdentifier := src.InterfaceIdentifier,
      Disabled := None,
      DisabledReason := src.DisabledReason,
      ExpiresAt := src.ExpiresAt,
      Notes := src.Notes,
      Interface := D.PeerInterfaceConfig(
        KeyPair := DomainCrypto.KeyPair(src.PrivateKey, src.PublicKey),
        Type := src.Mode,
        Addresses := cidrs,
        CheckAliveAddress := src.CheckAliveAddress,
        DnsStr := h.StringSliceConfigOptionToDomain(src.Dns),
        DnsSearchStr := h.StringSliceConfigOptionToDomain(src.DnsSearch),
        Mtu := h.IntConfigOptionToDomain(src.Mtu),
        FirewallMark := h.Int32ConfigOptionToDomain(src.FirewallMark),
        RoutingTable := h.StringConfigOptionToDomain(src.RoutingTable),
        PreUp := h.StringConfigOptionToDomain(src.PreUp),
        PostUp := h.StringConfigOptionToDomain(src.PostUp),
        PreDown := h.StringConfigOptionToDomain(src.PreDown),
        PostDown := h.StringConfigOptionToDomain(src.PostDown)));
    if src.Disabled then res.(Disabled := Some(now)) else res
  }

  /**
   * Converting an API peer to the domain form and back keeps its plain
   * text fields and its expiry date; the disabled flag survives too when
   * the status helper reports a peer disabled exactly when it carries a
   * disabling time.
   */
  lemma DomainRoundTrip(p: Peer, now: Time, h: Helpers, h': Helpers)
    ensures var q := NewPeer(NewDomainPeer(p, now, h), h');
      && q.Identifier == p.Identifier
      && q.DisplayName == p.DisplayName
      && q.UserIdentifier == p.UserIdentifier
      && q.InterfaceIdentifier == p.InterfaceIdentifier
      && q.DisabledReason == p.DisabledReason
      && q.Notes == p.Notes
      && q.PresharedKey == p.PresharedKey
      && q.PrivateKey == p.PrivateKey
      && q.PublicKey == p.PublicKey
      && q.Mode == p.Mode
      && q.CheckAliveAddress == p.CheckAliveAddress
      && q.ExpiresAt == p.ExpiresAt
    ensures (forall d: D.Peer :: h'.IsDisabled(d) == d.Disabled.Some?) ==>
      NewPeer(NewDomainPeer(p, now, h), h').Disabled == p.Disabled
  {
  }

  datatype MultiPeerRequest = MultiPeerRequest(Identifiers: seq<string>, Suffix: string)

  /** `NewDomainPeerCreationRequest`: the same identifiers, in order, and the same suffix. */
  function NewDomainPeerCreationRequest(src: MultiPeerRequest): (r: D.PeerCreationRequest)
    ensures r.UserIdentifiers == src.Identifiers && r.Suffix == src.Suffix
  {
    D.PeerCreationRequest(UserIdentifiers := src.Identifiers, Suffix := src.Suffix)
  }

  datatype PeerStatData = PeerStatData(
    IsConnected: bool,
    IsPingable: bool,
    LastPing: Option<Time>,
    BytesReceived: D.uint64,
    BytesTransmitted: D.uint64,
    LastHandshake: Option<Time>,
    EndpointAddress: string,
    LastSessionStart: Option<Time>)

  /** `Stats` is keyed by peer identifier. */
  datatype PeerStats = PeerStats(Enabled: bool, Stats: map<string, PeerStatData>)

  /** The API form of one status; `isConnected` is the domain's connectivity test. */
  function StatDataOf(s: D.PeerStatus, isConnected: D.PeerStatus -> bool): PeerStatData {
    PeerStatData(
      IsConnected := isConnected(s),
      IsPingable := s.IsPingable,
      LastPing := s.LastPing,
      BytesReceived := s.BytesReceived,
      BytesTransmitted := s.BytesTransmitted,
      LastHandshake := s.LastHandshake,
      EndpointAddress := s.Endpoint,
      LastSessionStart := s.LastSessionStart)
  }

  /** The map after inserting the statuses of `src` in order, a later entry replacing an earlier one. */
  function StatsOf(src: seq<D.PeerStatus>, isConnected: D.PeerStatus -> bool): map<string, PeerStatData>
    decreases |src|
  {
    if |src| == 0 then map[]
    else StatsOf(src[..|src| - 1], isConnected)[src[|src| - 1].PeerId := StatDataOf(src[|src| - 1], isConnected)]
  }

  /** The identifiers of `src`, without repetition. */
  function PeerIds(src: seq<D.PeerStatus>): set<string> {
    set i | 0 <= i < |src| :: src[i].PeerId
  }

  /** The keys of the statistics map are exactly the peer identifiers of the statuses. */
  lemma {:induction false} StatsKeys(src: seq<D.PeerStatus>, isConnected: D.PeerStatus -> bool)
    ensures StatsOf(src, isConnected).Keys == PeerIds(src)
    decreases |src|
  {
    if |src| > 0 {
      var init := src[..|src| - 1];
      StatsKeys(init, isConnected);
      assert PeerIds(src) == PeerIds(init) + {src[|src| - 1].PeerId} by {
        forall k | k in PeerIds(src) ensures k in PeerIds(init) + {src[|src| - 1].PeerId} {
          var i :| 0 <= i < |src| && src[i].PeerId == k;
          if i < |src| - 1 {
            assert init[i] == src[i];
          }
        }
        forall k | k in PeerIds(init) ensures k in PeerIds(src) {
          var i :| 0 <= i < |init| && init[i].PeerId == k;
          assert src[i] == init[i];
        }
      }
    }
  }

  /** The entry of an identifier comes from the last status that carries it. */
  lemma {:induction false} StatsLastWins(src: seq<D.PeerStatus>, isConnected: D.PeerStatus -> bool, i: nat)
    requires i < |src|
    requires forall j :: i < j < |src| ==> src[j].PeerId != src[i].PeerId
    ensures src[i].PeerId in StatsOf(src, isConnected)
    ensures StatsOf(src, isConnected)[src[i].PeerId] == StatDataOf(src[i], isConnected)
    decreases |src|
  {
    if i < |src| - 1 {
      var init := src[..|src| - 1];
      assert init[i] == src[i];
      forall j | i < j < |init| ensures init[j].PeerId != init[i].PeerId {
        assert init[j] == src[j];
      }
      StatsLastWins(init, isConnected, i);
    }
  }

  /**
   * `NewPeerStats`: copies the tracking flag and inserts one entry per
   * status, keyed by peer identifier, so that a repeated identifier keeps
   * the data of its last status.
   */
  method NewPeerStats(enabled: bool, src: seq<D.PeerStatus>, isConnected: D.PeerStatus -> bool)
    returns (r: PeerStats)
    ensures r.Enabled == enabled
    ensures r.Stats == StatsOf(src, isConnected)
    ensures r.Stats.Keys == PeerIds(src)
    ensures forall i :: 0 <= i < |src| && (forall j :: i < j < |src| ==> src[j].PeerId != src[i].PeerId) ==>
      r.Stats[src[i].PeerId] == StatDataOf(src[i], isConnected)
  {
    var stats: map<string, PeerStatData> := map[];
    for n := 0 to |src|
      invariant stats == StatsOf(src[..n], isConnected)
    {
      assert src[..n + 1][..n] == src[..n];
      stats := stats[src[n].PeerId := StatDataOf(src[n], isConnected)];
    }
    assert src[..|src|] == src;
    StatsKeys(src, isConnected);
    forall i | 0 <= i < |src| && (forall j :: i < j < |src| ==> src[j].PeerId != src[i].PeerId)
      ensures stats[src[i].PeerId] == StatDataOf(src[i], isConnected)
    {
      StatsLastWins(src, isConnected, i);
    }
    r := PeerStats(Enabled := enabled, Stats := stats);
  }
}
