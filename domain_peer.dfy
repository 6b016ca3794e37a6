/**
 * The domain records the API peer model converts from and to: the peer,
 * its interface settings, its runtime status and a bulk-creation request.
 * Only the fields those conversions read or write are modelled.
 */
module DomainPeer {
  import opened Wrappers
  import DomainCrypto
  import ExpiryDateJson

  type Time = ExpiryDateJson.Time

  newtype uint64 = x: int | 0 <= x < 0x1_0000_0000_0000_0000

  /** A configuration value and whether it may be overridden per peer. */
  datatype ConfigOption<T> = ConfigOption(Value: T, Overridable: bool)

  /** A parsed interface address. */
  datatype Cidr = Cidr(Addr: string)

  datatype PeerInterfaceConfig = PeerInterfaceConfig(
    KeyPair: DomainCrypto.KeyPair,
    Type: string,
    Addresses: seq<Cidr>,
    CheckAliveAddress: string,
    DnsStr: ConfigOption<string>,
    DnsSearchStr: ConfigOption<string>,
    Mtu: ConfigOption<int>,
    FirewallMark: ConfigOption<int>,
    RoutingTable: ConfigOption<string>,
    PreUp: ConfigOption<string>,
    PostUp: ConfigOption<string>,
    PreDown: ConfigOption<string>,
    PostDown: ConfigOption<string>)

  /** `domain.Peer`; `Disabled` holds the time the peer was disabled, if it is. */
  datatype Peer = Peer(
    Endpoint: ConfigOption<string>,
    EndpointPublicKey: ConfigOption<string>,
    AllowedIPsStr: ConfigOption<string>,
    ExtraAllowedIPsStr: string,
    PresharedKey: string,
    PersistentKeepalive: ConfigOption<int>,
    DisplayName: string,
    Identifier: string,
    UserIdentifier: string,
    InterfaceIdentifier: string,
    Disabled: Option<Time>,
    DisabledReason: string,
    ExpiresAt: Option<Time>,
    Notes: string,
    Interface: PeerInterfaceConfig)

  /** `domain.PeerStatus`, the runtime state of one peer. */
  datatype PeerStatus = PeerStatus(
    PeerId: string,
    IsPingable: bool,
    LastPing: Option<Time>,
    BytesReceived: uint64,
    BytesTransmitted: uint64,
    LastHandshake: Option<Time>,
    Endpoint: string,
    LastSessionStart: Option<Time>)

  datatype PeerCreationRequest = PeerCreationRequest(UserIdentifiers: seq<string>, Suffix: string)
}
