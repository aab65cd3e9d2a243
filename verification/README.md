# Monsoon virtual-machine console: manifest builder, IPAM reservation and Kubernetes requests

Monsoon is a small web console for creating and watching KubeVirt virtual
machines. It reserves each machine's address from Netbox, the IPAM service.
This Dafny project models three parts of its core logic and proves what they
promise:

- **The VirtualMachine manifest builder** (`Machines`, after `app/machines.ts`).
  `BuildMachine` is a pure function from the seven creation options to a KubeVirt
  `VirtualMachine` value. The value's datatypes (`KubernetesTypes`) follow
  `app/kubernetes-types.ts` and the object literal in `buildMachine`. The
  cloud-init network data and user data are modelled as strings: their lines
  joined with `"\n"`, which is the same text as the source's template literals.
  The proofs show that every option reaches the manifest intact. It can be read
  back from the manifest (`MachineOptionsOf`), line by line for the cloud-init
  documents.
- **IPAM prefix selection and address reservation** (`Netbox`, after
  `app/netbox.server.ts`). `GetJSON` and `CreateJSON` return the request they
  send and apply the 2xx rule of `Http.CheckStatus` to Netbox's answer; a
  refused answer is thrown whole, as a `NetboxError` that carries the response.
  `FindPrefix` takes the answer to the prefix listing as an input and models
  `results.find` over it (`FindExternal`). The Netbox state that the console
  itself changes is the class `IPAM`: the addresses each prefix offers and the
  IP-address records created so far. Netbox computes a prefix's
  `available-ips` on the server: these are the prefix's addresses that no
  record holds (`IPAM.AvailableIPs`). `ReserveIPAddress` is the source's step
  sequence: fetch, fail on an empty list, draw an index, create one record, and
  return the address in the CIDR form in which it was listed. Netbox's answer to
  the create is an input, and the record is kept exactly when that answer is a
  2xx. The `Math.random()` draw is an input `random` in [0, 1).
- **Kubernetes request construction** (`Kubernetes`, after
  `app/kubernetes.server.ts`). `Set` models `URLSearchParams.set`, and
  `BuildSearchParams` is the source's two conditional `set` calls. The path
  templates are functions. The `KubernetesClient` class holds its token in a
  `const` field, set once by the constructor. Its methods return each request as
  data (verb, URL, headers, body). The server's response is an input. It is
  accepted or thrown by the 2xx rule in `Http.CheckStatus`, the same rule the
  Netbox helpers apply.

`Provision.CreateMachine` sequences the three parts as the machine-creation
action does (lines 56-77 of `app/routes/namespaces.$ns.machines.new.tsx`). It
proves the property that ties them together: the manifest sent to the cluster
carries the address that was just recorded in Netbox. The annotation holds that
address without its prefix length, and the network data holds it in CIDR form.
In detail, its contract states the following:

- A refused prefix listing is thrown whole. It, no external prefix, a missing
  or empty gateway, and a failed reservation all record nothing and send
  nothing.
- If no address was recorded twice before, none is afterwards.
- When the listing is accepted and holds an external prefix, the machine is
  sent exactly when that prefix has a gateway, its available-ips answer is a
  2xx with a non-empty list, and Netbox accepts the record create. The
  recorded address is then one of the addresses in that list.
- When the machine is sent, exactly one record `<ns>/<name>` was added, and the manifest sent is
  `buildMachine` of the form, the recorded address and the gateway without its
  length.
- The manifest's annotation is the recorded address without its prefix length.
- A rejected create of the machine keeps the Netbox record and yields the
  response as the error.
- On success the result is the redirect to the created machine.

Four facts about the code shape the model:

- `reserveIPAddress` returns the address as listed, with its `/len` suffix, not
  the bare address.
- `findPrefix` takes the first external prefix in list order. It does not fail
  when several prefixes match.
- `findPrefix` and `reserveIPAddress` do not check the prefix's gateway. That
  check happens in the route, between the two calls, and it is modelled there
  (`Provision.GatewayOf`).
- No retry loop exists around the create call.

## Model

| member | source | states |
|---|---|---|
| `Text.Split` | app/machines.ts:27 | `split("/")` always yields at least one field, and no field contains the separator |
| `Text.FirstFieldIsSplitHead` | app/machines.ts:27 | `s.split(sep)[0]` is exactly the longest separator-free prefix of `s`: a prefix of `s` without `sep` that ends at the end of `s` or just before a `sep` |
| `Text.JoinSplit` | app/machines.ts:27 | joining the fields of a split with the separator gives back the original string |
| `Text.SplitJoin` | app/machines.ts:30-45 | a text made of separator-free lines joined by the separator splits back into exactly those lines |
| `Text.IntToStringRoundTrip` | app/kubernetes.server.ts:89 | the decimal rendering of an integer (`String(n)`) reads back as that integer, so distinct integers render differently |
| `Machines.AddressWithoutLength` | app/machines.ts:26-28 | the address annotation is the text before the first `/`, or the whole string when there is none |
| `Machines.AddressOfCidr` | app/machines.ts:27 | for `a/len` with no `/` in `a` the annotation is `a`; an address without `/` is kept whole |
| `Machines.NetworkDataReadBack` | app/machines.ts:30-41 | read line by line, the network data is exactly the template's twelve lines: the address is the one entry under `addresses`, the gateway is the `via` of the default route, and the nameservers are 1.1.1.1 and 1.0.0.1 |
| `Machines.UserDataReadBack` | app/machines.ts:43-45 | read line by line, the user data is `#cloud-config`, `ssh_authorized_keys:` and exactly one entry `  - <sshKey>` |
| `Machines.StorageRequestRoundTrip` | app/machines.ts:115 | the storage request is `<n>Gi` and reads back as `rootDiskSize` |
| `Machines.BuildMachine` | app/machines.ts:13-131 | the manifest has `kubevirt.io/v1`/`VirtualMachine`, `running: true`, the cluster instancetype kind and the `ubuntu` preference, one bridged interface on the `bridge-external` network, and exactly two volumes, `root` (the data volume named after the VM) then `cloudinit`. It has one data-volume template named after the VM with the `kubevirt.io/vm` label (also on the pod template), read-write-once, block mode, cloned from `vm-images`. Its address annotation is the first field of `ipv4Address`, and no creation timestamp or other metadata is set. Its instancetype is `size`, its disk clones `sourcePVCName` with storage `<rootDiskSize>Gi`, and its cloud-init volume holds the network data of the address and gateway and the user data of the key |
| `Machines.BuildMachineRoundTrip` | app/machines.ts:13-131 | all seven options can be read back from the manifest: name, size (instancetype name), disk size (parsed from the storage request), image (clone source), address and gateway (from the network-data lines) and SSH key (from the user-data lines) |
| `Machines.BuildMachineInjective` | app/machines.ts:3-11 | distinct options whose address, gateway and key are single lines give distinct manifests |
| `Netbox.FindExternal` | app/netbox.server.ts:23-25 | `find` returns an index whose prefix has `monsoon_pool == "external"` and no earlier prefix does; it finds nothing exactly when no prefix does |
| `Netbox.FindExternalIgnoresGateway` | app/netbox.server.ts:20-31 | the selection does not look at gateways: lists that differ only in gateways select the same prefix, or fail alike |
| `Netbox.FindExternalUnique` | app/netbox.server.ts:23-25 | a prefix that is external and preceded by no external prefix is the one `find` returns |
| `Netbox.FindPrefix` | app/netbox.server.ts:20-31 | sends a GET of `/api/ipam/prefixes/` with the token. A non-2xx listing is thrown whole. Otherwise it returns a listed external prefix with no external prefix before it, and fails with "no prefix found" exactly when no listed prefix is external |
| `Netbox.PickIndex` | app/netbox.server.ts:42-43 | `floor(random * length)` for a draw in [0, 1) lies in [0, length) |
| `Netbox.EveryIndexReachable` | app/netbox.server.ts:43 | every index of the available list is drawn by some value of `random` |
| `Netbox.Unassigned` | app/netbox.server.ts:57-59 | the available list holds exactly the pool entries whose address is not yet recorded |
| `Netbox.IPAM.AvailableIPs` | app/netbox.server.ts:57-59 | Netbox's `available-ips` answer: a 2xx exactly for a known prefix, listing exactly its addresses that no record holds; an unknown prefix id is answered 404 with an empty list |
| `Netbox.IPAM.constructor` | app/netbox.server.ts:3-18 | the service starts with the given pools and no records |
| `Netbox.IPAM.CreateIPAddress` | app/netbox.server.ts:61-63 | a create answered with a 2xx appends exactly that record, any other answer records nothing; no address is recorded twice afterwards exactly when that held before and the created address was not yet recorded |
| `Netbox.ReserveIPAddress` | app/netbox.server.ts:33-51 | fetches `/api/ipam/prefixes/<id>/available-ips`; both of its requests carry the Netbox token. A refused fetch is thrown whole and records nothing. An empty list fails with "no available IPs" and records nothing. Otherwise it POSTs to `/api/ipam/ip-addresses/` a record of the listed CIDR address at `floor(random * length)` with the description. A refused create is thrown whole and records nothing; an accepted one appends exactly that record and returns the address. No address is recorded twice if none was before. The returned address was in the prefix's pool and unrecorded, and is no longer available afterwards |
| `Netbox.AvailableIPsPathInjective` | app/netbox.server.ts:58 | distinct prefix ids are fetched from distinct `available-ips` paths |
| `Netbox.GetJSON` | app/netbox.server.ts:81-91 | a Netbox GET goes to the Netbox URL plus the path, carries `Authorization: Token <token>`, and has no body and no content type. The answer's body is the result exactly when the status is 2xx; otherwise the response itself is thrown |
| `Netbox.CreateJSON` | app/netbox.server.ts:65-79 | a Netbox create is a POST of the item to the Netbox URL plus the path, with the token and a JSON content type. The answer follows the same 2xx rule |
| `Http.LookupMeaning` | app/kubernetes.server.ts:51-53 | looking up a header or parameter yields the value of the first pair with that key, and nothing exactly when no pair has it |
| `Http.CheckStatus` | app/netbox.server.ts:87-89 | a response is accepted, yielding its body, exactly when `200 <= status < 300`; otherwise the response itself is the error |
| `Http.SuccessIsStatusClassTwo` | app/netbox.server.ts:75-77 | the accepted statuses are exactly the 2xx class |
| `Kubernetes.SetMeaning` | app/kubernetes.server.ts:89 | after `set(key, value)`, `get(key)` is `value`, the pairs with other keys are unchanged and in order, and a new key is appended at the end |
| `Kubernetes.SetLeavesOne` | app/kubernetes.server.ts:92 | after `set`, the key occurs exactly once |
| `Kubernetes.BuildSearchParams` | app/kubernetes.server.ts:82-96 | `limit` is present iff the limit is truthy (defined and non-zero), with value `String(limit)`. `labelSelector` is present iff it is a non-empty string. No other parameter is present, and `limit` comes first |
| `Kubernetes.SearchParamsUnique` | app/kubernetes.server.ts:82-96 | the options determine the parameter list completely |
| `Kubernetes.NoOptionsNoQuery` | app/kubernetes.server.ts:86 | without options the query string is empty |
| `Kubernetes.PathsIdentifyResource` | app/kubernetes.server.ts:19-43 | the namespace can be read back from the events path and from the VM path; an events path is never a VM path or the namespaces path |
| `Kubernetes.KubernetesClient.constructor` | app/kubernetes.server.ts:9-14 | the client keeps the token it is given; the field is a constant, so it never changes |
| `Kubernetes.KubernetesClient.GetJSON` | app/kubernetes.server.ts:48-59 | a GET to `kubeURL + path + "?" + query`, where the query is the one `buildSearchParams` promises (`kubeURL + path + "?"` without options). It carries `Authorization: Bearer <token>` and has no body and no content type, and its result is the body iff the status is 2xx, otherwise the response |
| `Kubernetes.KubernetesClient.CreateJSON` | app/kubernetes.server.ts:61-79 | a POST of the item to `kubeURL + path` with no query string, with the bearer token and a JSON content type; the result follows the 2xx rule |
| `Kubernetes.KubernetesClient.ListNamespaces` | app/kubernetes.server.ts:16-20 | lists `/api/v1/namespaces` with the options as query and the bearer token |
| `Kubernetes.KubernetesClient.ListEvents` | app/kubernetes.server.ts:22-26 | lists `/api/v1/namespaces/<ns>/events` with the options as query and the bearer token |
| `Kubernetes.KubernetesClient.ListVirtualMachines` | app/kubernetes.server.ts:39-46 | lists `/apis/kubevirt.io/v1/namespaces/<ns>/virtualmachines` with the options as query and the bearer token |
| `Kubernetes.KubernetesClient.CreateVirtualMachine` | app/kubernetes.server.ts:28-37 | POSTs the manifest to `/apis/kubevirt.io/v1/namespaces/<ns>/virtualmachines` with the bearer token and a JSON content type |

## Left out

- HTTP transport: `fetch`, `JSON.stringify`, `resp.json()` and `URLSearchParams` percent-encoding. Requests are data. A response is an input. `QueryString` joins `key=value` pairs with `&` and does not encode them.
- `Math.random` is the input `random`. The uniformity of the draw is not modelled; the model only shows that every index is reachable.
- Configuration is read from the environment in the source. Here the Kubernetes URL is a constructor argument of `KubernetesClient`, and the Netbox URL and token are a `NetboxConfig` value. The source's config module does not define the Netbox fields; that module is not part of this model.
- Netbox.ReserveIPAddress: concurrent reservations are not modelled, because the model is sequential. Whether Netbox accepts the create is the input answer, not derived from its state.
- Netbox.IPAM.AvailableIPs: the answer is computed from the Netbox state, so the only refusal of the available-ips fetch is the 404 of an unknown prefix; refusals for other reasons (authorisation, server errors) are not modelled for that request. The body of any refused Netbox answer is modelled with the type of a successful one; the error document Netbox sends is not modelled.
- `BuildMachineOptions.rootDiskSize` is an integer. The form coerces any number, and non-integer or NaN sizes are not modelled. `Text.IntToString` is JavaScript's decimal rendering only below 10^21; from there `String(n)` switches to exponent form (`1e+21Gi`), which is not modelled.
- Kubernetes.HasLimit: a limit is truthy when present and non-zero; NaN is not modelled.
- The client methods `getVirtualMachine`, `listPersistentVolumeClaims` and `listVirtualMachineClusterInstancetypes` are called by routes but are not defined in `app/kubernetes.server.ts`. They are not part of this model.
- OIDC sessions, cookies, the React views, route loaders other than machine creation, timer-driven revalidation, and the display ordering of events are UI and session glue outside the core.
- The empty `CreateOptions` passed to `createJSON` carries nothing and is dropped.
