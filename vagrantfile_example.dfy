/**
 * The expected Vagrantfile of the two-system scenario used in the
 * scenario reader's tests, derived from the emission model.
 */
module VagrantfileExample {
  import opened Wrappers
  import opened Networks
  import opened Systems
  import opened Scenarios
  import opened Vagrantfile

  /** The block of a system attached to one internal network with one lease on it. */
  lemma SingleLeaseBlockLines(system: System, fold: string -> string, net: Network, lease: string)
    requires system.networks == [net] && net.networkType == Internal
    requires net.name in system.leasedNetworkAddresses && system.leasedNetworkAddresses[net.name] == [lease]
    ensures LeasesCover(system)
    ensures SystemBlock(system, fold) ==
              [ "    " + DefineLine(system, fold),
                "        " + BoxLine(system),
                "        " + PrivateNetworkLine(system.name, lease, net.name),
                "    end" ]
  {
    assert LeasesCover(system);
    var text := PrivateNetworkLine(system.name, lease, net.name);
    var line := Indented(2, text);
    assert LeaseLines(system.name, [lease], net.name) == [line];
    assert NetworkParts(system) == [[line]];
    assert Concat([[line]]) == Concat<string>([]) + [line];
    IndentedColumns(text);
    SystemBlockShape(system, fold);
    var block := SystemBlock(system, fold);
    assert block[2..3] == [line];
  }

  /** The same block, its lines written split where the values are inserted. */
  lemma SingleLeaseBlock(system: System, fold: string -> string, net: Network, lease: string)
    requires system.networks == [net] && net.networkType == Internal
    requires net.name in system.leasedNetworkAddresses && system.leasedNetworkAddresses[net.name] == [lease]
    ensures LeasesCover(system)
    ensures SystemBlock(system, fold) == [
              "    " + "config.vm.define \"" + system.name + "\" do |" + fold(system.name) + "|",
              "        " + system.name + ".vm.box = \"" + system.baseBox + "\"",
              "        " + system.name + ".vm.network \"private_network\", ip: \"" + lease
                + "\", virtualbox__intnet: \"" + net.name + "\"",
              "    end" ]
  {
    SingleLeaseBlockLines(system, fold, net, lease);
    assert "    " + DefineLine(system, fold)
        == "    " + DefineOpen + system.name + DefineMiddle + fold(system.name) + DefineClose;
    assert "        " + BoxLine(system) == "        " + system.name + BoxMiddle + system.baseBox + Quote;
    assert "        " + PrivateNetworkLine(system.name, lease, net.name)
        == "        " + system.name + PrivateMiddle + lease + IntnetMiddle + net.name + Quote;
  }

  /**
   * Two systems, "Desktop" and "Server", on the internal network "LAN",
   * leased 192.168.0.1 and 192.168.0.2: the file holds Desktop's block and
   * then Server's, each binding its address on "LAN". The expected lines
   * are written split where the names, box and address are inserted.
   */
  lemma TwoSystemsOnOneInternalNetwork(fold: string -> string)
    requires fold("Desktop") == "desktop" && fold("Server") == "server"
    ensures var lan := Network("LAN", Internal, Some("192.168.0.1/24"));
            var desktop := System("Desktop", "Windows 10", [lan], map["LAN" := ["192.168.0.1"]]);
            var server := System("Server", "Debian", [lan], map["LAN" := ["192.168.0.2"]]);
            var s := Scenario("Test scenario", [lan], [desktop, server]);
            && NetworkingConfigured(s)
            && VagrantfileLines(s, fold) == [
                 "Vagrant.configure(\"2\") do |config|",
                 "    " + "config.vm.define \"" + "Desktop" + "\" do |" + "desktop" + "|",
                 "        " + "Desktop" + ".vm.box = \"" + "Windows 10" + "\"",
                 "        " + "Desktop" + ".vm.network \"private_network\", ip: \"" + "192.168.0.1"
                   + "\", virtualbox__intnet: \"" + "LAN" + "\"",
                 "    end",
                 "    " + "config.vm.define \"" + "Server" + "\" do |" + "server" + "|",
                 "        " + "Server" + ".vm.box = \"" + "Debian" + "\"",
                 "        " + "Server" + ".vm.network \"private_network\", ip: \"" + "192.168.0.2"
                   + "\", virtualbox__intnet: \"" + "LAN" + "\"",
                 "    end",
                 "end" ]
  {
    var lan := Network("LAN", Internal, Some("192.168.0.1/24"));
    var desktop := System("Desktop", "Windows 10", [lan], map["LAN" := ["192.168.0.1"]]);
    var server := System("Server", "Debian", [lan], map["LAN" := ["192.168.0.2"]]);
    var s := Scenario("Test scenario", [lan], [desktop, server]);
    SingleLeaseBlock(desktop, fold, lan, "192.168.0.1");
    SingleLeaseBlock(server, fold, lan, "192.168.0.2");
    var blocks := SystemBlocks(s, fold);
    assert blocks == [SystemBlock(desktop, fold), SystemBlock(server, fold)];
    assert Concat(blocks) == SystemBlock(desktop, fold) + SystemBlock(server, fold) by {
      assert blocks[..1] == [SystemBlock(desktop, fold)];
      assert Concat(blocks[..1]) == Concat<string>([]) + SystemBlock(desktop, fold);
    }
    IndentedColumns(Header);
    IndentedColumns(End);
  }
}
