/** The machine-creation action: find the external prefix, check that it
    has a gateway, reserve an address in it, build the manifest and send it
    to the cluster. Nothing is undone when a later step fails: an address
    reserved before a rejected create stays recorded. */
module Provision {

  import opened Wrappers
  import opened Http
  import opened KubernetesTypes
  import Netbox
  import Machines
  import Kubernetes

  /** The creation form, `rootDiskSize` already coerced to a number. */
  datatype MachineForm = MachineForm(name: string, sourcePVCName: string, rootDiskSize: int, size: string, sshKey: string)

  datatype ActionError =
    | NetboxFailed(cause: Netbox.NetboxError)
    | MissingGateway
    | KubernetesFailed(response: Response<VirtualMachine>)

  /** The gateway of an external prefix, without its prefix length, if the
      prefix has a non-empty gateway address. */
  function GatewayOf(prefix: Netbox.Prefix): Option<string>
  {
    match prefix.customFields.gateway
    case Some(gateway) =>
      if gateway.address == "" then None else Some(Machines.AddressWithoutLength(gateway.address))
    case None => None
  }

  /** The action's steps, with Netbox's answers to the prefix listing and to
      the record create (`prefixes`, `createAnswer`), the Netbox state
      `ipam` answering the available-ips fetch, and the cluster's answer
      `resp` to the create of the machine. `sent` is the request sent to the
      cluster, if the action got that far. */
  method CreateMachine(ipam: Netbox.IPAM, netboxCfg: Netbox.NetboxConfig, client: Kubernetes.KubernetesClient,
                       namespace: string, form: MachineForm, random: real,
                       prefixes: Response<Netbox.NetboxList<Netbox.Prefix>>,
                       createAnswer: Response<Netbox.AvailableIP>, resp: Response<VirtualMachine>)
    returns (sent: Option<Request<VirtualMachine>>, r: Result<string, ActionError>)
    requires 0.0 <= random < 1.0
    modifies ipam`created
    ensures old(ipam.Valid()) ==> ipam.Valid()
    ensures sent.None? ==> r.Failure? && ipam.created == old(ipam.created)
    ensures !IsSuccessStatus(prefixes.status) ==> sent.None? && r == Failure(NetboxFailed(Netbox.PrefixesRejected(prefixes)))
    ensures sent.Some? ==>
      && IsSuccessStatus(prefixes.status)
      && Netbox.FindExternal(prefixes.body.results).Some?
      && var prefix := prefixes.body.results[Netbox.FindExternal(prefixes.body.results).value];
      && GatewayOf(prefix).Some?
      && IsSuccessStatus(createAnswer.status)
      && |ipam.created| == |old(ipam.created)| + 1
      && var record := ipam.created[|ipam.created| - 1];
      && ipam.created == old(ipam.created) + [record]
      && record.description == Some(namespace + "/" + form.name)
      && sent.value.verb == POST
      && sent.value.url == client.kubeURL + Kubernetes.VirtualMachinesPath(namespace)
      && sent.value.body == Some(Machines.BuildMachine(Machines.BuildMachineOptions(
           form.name, form.size, form.rootDiskSize, form.sourcePVCName,
           record.address, GatewayOf(prefix).value, form.sshKey)))
      && sent.value.body.value.metadata.annotations.value[Machines.AddressAnnotation]
         == Machines.AddressWithoutLength(record.address)
    ensures IsSuccessStatus(prefixes.status) && Netbox.FindExternal(prefixes.body.results).Some? ==>
      var prefix := prefixes.body.results[Netbox.FindExternal(prefixes.body.results).value];
      var available := old(ipam.AvailableIPs(prefix.id));
      && (sent.Some? <==> GatewayOf(prefix).Some? && IsSuccessStatus(available.status) && available.body != []
                          && IsSuccessStatus(createAnswer.status))
      && (sent.Some? ==> Netbox.AvailableIP(ipam.created[|ipam.created| - 1].address) in available.body)
    ensures r.Success? <==> sent.Some? && IsSuccessStatus(resp.status)
    ensures r.Success? ==> r.value == "/namespaces/" + namespace + "/machines/" + resp.body.metadata.name + "?refresh=true"
    ensures sent.Some? && r.Failure? ==> r.error == KubernetesFailed(resp)
  {
    sent := None;
    var listing, found := Netbox.FindPrefix(netboxCfg, prefixes);
    if found.Failure? {
      return None, Failure(NetboxFailed(found.error));
    }
    var prefix := found.value;
    Netbox.FindExternalUnique(prefixes.body.results, prefix);
    var gateway := GatewayOf(prefix);
    if gateway.None? {
      return None, Failure(MissingGateway);
    }
    var fetch, create, reserved := Netbox.ReserveIPAddress(ipam, netboxCfg, prefix.id, namespace + "/" + form.name, random, createAnswer);
    if reserved.Failure? {
      return None, Failure(NetboxFailed(reserved.error));
    }
    var vm := Machines.BuildMachine(Machines.BuildMachineOptions(
      form.name, form.size, form.rootDiskSize, form.sourcePVCName, reserved.value, gateway.value, form.sshKey));
    var req, result := client.CreateVirtualMachine(vm, namespace, resp);
    sent := Some(req);
    if result.Failure? {
      return sent, Failure(KubernetesFailed(result.error));
    }
    r := Success("/namespaces/" + namespace + "/machines/" + result.value.metadata.name + "?refresh=true");
  }
}
