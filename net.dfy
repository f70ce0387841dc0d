/**
 * Abstraction of IP address literals. Parsing (`net.ParseIP`, `IpAddr::from_str`) is foreign
 * library behaviour and is passed to the models as a partial function `string -> Option<IpAddress>`;
 * the string form of an address (`IP.String()`, `to_string()`) is `text`. No canonicalisation
 * of IPv6 forms is assumed: two addresses are compared through their texts only.
 */
module Net {
  import opened Wrappers

  datatype IpAddress = IpAddress(text: string)

  /** A parser of IP literals, as the standard library would give it. */
  type IpParser = string -> Option<IpAddress>
}
