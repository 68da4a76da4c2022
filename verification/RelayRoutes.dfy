/** What the relay route table and the route compiler both know of a route. */
module RelayRoutes {
  /** A route is named by its source: a Node and an inbound on it. */
  datatype Key = Key(node: nat, inbound: nat)

  datatype Phase = Disabled | Enabling | Enabled | Disabling | Deleting
}
