/** The system (host) entity, as it stands after its networking has been configured. */
module Systems {
  import opened Networks

  /**
   * A host: its name, its base box, the networks it is attached to (one entry
   * per interface, in declared order) and, per network name, the addresses
   * leased to it on that network.
   */
  datatype System = System(
    name: string,
    baseBox: string,
    networks: seq<Network>,
    leasedNetworkAddresses: map<string, seq<string>>)

  /**
   * Every internal network the system is attached to has an entry in its
   * lease map, so looking the network up there cannot fail.
   */
  predicate LeasesCover(system: System) {
    forall net :: net in system.networks && net.networkType == Internal ==>
      net.name in system.leasedNetworkAddresses
  }
}
