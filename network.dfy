/** The network entity (`Network`, `NetworkType`). */
module Networks {
  import opened Wrappers

  datatype NetworkType = Public | Internal

  /**
   * A network segment. The subnet is kept as its opaque text: CIDR parsing and
   * address arithmetic belong to the address library, not to this model.
   */
  datatype Network = Network(name: string, networkType: NetworkType, subnet: Option<string>)
}
