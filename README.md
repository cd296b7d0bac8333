# VMware VM inventory normaliser

This project models the record normaliser of `vmware-api-inventory/vmware_inventory.py`. That code takes the virtual machines that a vSphere session enumerates. For each one it builds a flat key/value record: identity fields, annotation, power state, guest IP address, VMware Tools status, pending runtime question, product name and vendor, and the list of network adapters. It then returns the list of records, or `False` when the list is empty.

Files:

- `wrappers.dfy`: module `Wrappers`, with the `Option` type that stands for Python's `None`.
- `vsphere.dfy`: module `VSphere`, with the pyVmomi objects the normaliser reads, as datatypes. `Summary`, `ConfigSummary`, `RuntimeInfo`, `GuestSummary`, `QuestionInfo`, `ProductInfo` and `VirtualMachine` are there. `Device` is a tagged variant: `Vmxnet3`, `EthernetCard` or `Other`. The predicate `IsNetworkAdapter` replaces the `isinstance` test, and `Truthy` is Python truthiness of an optional string.
- `vmware_inventory.dfy`: module `VmwareInventory`, the normaliser itself.

A record is a `map<Key, Value>`. `Key` is a tag type with one constructor per dict key, and `KeyName` gives the Python string each tag stands for. `KeyNameInjective` proves that no two tags share a string. `Value` is `None` (`Null`), a string, a boolean, a power state, or the embedded list of adapter records.

The source methods build their results step by step. `parse_vm_summary` fills a dict key by key, `parse_vm_nics` appends to a list in a loop, and `parse_vm_inventory` adds a key to each summary dict and appends it to a list. Each one is modelled as a Dafny method that does the same steps. Each method's `ensures` ties its result to a reference function: `SummaryRecord`, `AdapterRecords` or `VmRecord`. The lemmas then state what the source promises about those functions. Because `ParseVmSummary` is proved equal to a function of its input, normalising the same VM twice gives the same record.

Three points of the source are easy to misread. The model follows the code in each:

- The guest fields fall back differently. The IP address falls back to `"None"` when it is falsy (`vmware_inventory.py` line 137). The tools status falls back only when it is `None` (line 141), so an empty status string is kept.
- An empty inventory returns `False` (lines 190-194). The model calls this result `NoInventory`.
- The docstring of `parse_vm_summary` (lines 109-110) says it may recurse into a folder with depth protection. The code never does this: it reads one VM's summary. The model follows the code.

## Model

| member | source | states |
|---|---|---|
| `VmwareInventory.KeyNameInjective` | vmware-api-inventory/vmware_inventory.py:119-150 | the dict keys the normaliser writes are pairwise distinct strings, so a record keyed by tags holds the same entries as the Python dict |
| `VmwareInventory.FixedFields` | vmware-api-inventory/vmware_inventory.py:119-132 | the unconditional part of the record has exactly the eight keys Name, Template, Path, Guest, Instance UUID, Bios UUID, Annotation and State |
| `VmwareInventory.SummaryRecord` | vmware-api-inventory/vmware_inventory.py:116-152 | the summary record has exactly the keys `SummaryKeys(s)`: the eight fixed keys always; the guest pair only with guest info; the runtime question only when one is pending; the product pair only with product metadata |
| `VmwareInventory.ParseVmSummary` | vmware-api-inventory/vmware_inventory.py:107-152 | filling the dict key by key in the source's order and under its conditions yields exactly `SummaryRecord` of the VM's summary |
| `VmwareInventory.PassthroughFields` | vmware-api-inventory/vmware_inventory.py:118-132 | Name, Template, Path, Guest, Instance UUID, Bios UUID and State equal the summary's fields verbatim, with an unset attribute copied as `None` |
| `VmwareInventory.AnnotationOrSentinel` | vmware-api-inventory/vmware_inventory.py:126-130 | Annotation is the source annotation when it is set and non-empty, and otherwise the literal `"None"` |
| `VmwareInventory.GuestFieldValues` | vmware-api-inventory/vmware_inventory.py:134-144 | with guest info, Guest IP Address is the IP when it is truthy and `"None"` otherwise; VMware-tools is the tools status when it is not `None`, an empty status included, and `"None"` otherwise |
| `VmwareInventory.QuestionAndProductValues` | vmware-api-inventory/vmware_inventory.py:145-150 | Runtime Question is the pending question's text; Product Name and Vendor are the product's name and vendor verbatim |
| `VmwareInventory.GuestKeysTogether` | vmware-api-inventory/vmware_inventory.py:134-144 | Guest IP Address and VMware-tools are each present if and only if guest info exists |
| `VmwareInventory.QuestionKeyPresence` | vmware-api-inventory/vmware_inventory.py:145-146 | Runtime Question is present if and only if a question is pending |
| `VmwareInventory.ProductKeysTogether` | vmware-api-inventory/vmware_inventory.py:147-150 | Product Name and Vendor are each present if and only if product metadata exists |
| `VmwareInventory.AdapterRecords` | vmware-api-inventory/vmware_inventory.py:163-174 | the adapter list is never longer than the device list |
| `VmwareInventory.AdapterRecordsAppend` | vmware-api-inventory/vmware_inventory.py:165-172 | the adapter list of two concatenated device lists is the concatenation of their adapter lists, so each device contributes in place and in order |
| `VmwareInventory.ParseVmNics` | vmware-api-inventory/vmware_inventory.py:154-174 | the loop that appends one `{Mac Address, Label}` dict per Vmxnet3 or Ethernet card yields exactly `AdapterRecords` of the device list |
| `VmwareInventory.AdapterPositionsIncreasing` | vmware-api-inventory/vmware_inventory.py:165-166 | the positions of network adapters are listed in device order, each once |
| `VmwareInventory.AdapterPositionsSound` | vmware-api-inventory/vmware_inventory.py:165-166 | only positions that hold a Vmxnet3 or Ethernet card are listed |
| `VmwareInventory.AdapterPositionsComplete` | vmware-api-inventory/vmware_inventory.py:165-166 | every position that holds a Vmxnet3 or Ethernet card is listed |
| `VmwareInventory.AdapterRecordsInDeviceOrder` | vmware-api-inventory/vmware_inventory.py:165-174 | the i-th adapter record is the `{Mac Address, Label}` record of the i-th network adapter in device order: one per adapter, with no dedup and nothing from any other device kind |
| `VmwareInventory.AdapterRecordsEmptyIffNone` | vmware-api-inventory/vmware_inventory.py:163-174 | the adapter list is empty if and only if the VM has no Vmxnet3 or Ethernet card |
| `VmwareInventory.VmRecord` | vmware-api-inventory/vmware_inventory.py:94-100 | a VM's record has the summary keys plus Network Adapters, which holds the VM's adapter list, and the embedding overwrites no summary key |
| `VmwareInventory.ParseVmInventory` | vmware-api-inventory/vmware_inventory.py:78-105 | exactly one record per input VM, in input order, each equal to `VmRecord` of that VM |
| `VmwareInventory.GetParsedInventory` | vmware-api-inventory/vmware_inventory.py:187-194 | the result is `False` (`NoInventory`) if and only if there are no VMs; otherwise it is the parsed list, one `VmRecord` per VM in order |

## Left out

- `connect_vsphere` (lines 29-52) is not modelled. It sets up the session through pyVim's `SmartConnectNoSSL`, registers an `atexit` disconnect and raises `SystemExit` on failure. All of this is network I/O and process-level effects.
- `get_vm_inventory` (lines 54-76) is not modelled. It is a remote container-view traversal. Its result enters the model as the input `seq<VirtualMachine>` of `ParseVmInventory` and `GetParsedInventory`.
- `main` (lines 197-204) is not modelled. It names a class `VMWareAPI` that does not exist and calls `get_vm_inventory` without its argument. It is broken plumbing.
- The `config` import and the unused `argparse`, `getpass`, `base64` and `datetime` imports are not modelled.
- GetParsedInventory: it takes the enumerated VMs as a sequence. The path where enumeration yields `None` is not modelled. In the source that path leaves `parsed_vms` unbound and raises `UnboundLocalError`. It cannot be reached, because `connect_vsphere` and `get_vm_inventory` either return a value or raise `SystemExit`.
- The pyVmomi class hierarchy is not modelled. `isinstance` becomes the tag test `IsNetworkAdapter`. `VirtualVmxnet3` is itself a `VirtualEthernetCard`, so the two tags select the same devices as the source's test.
- ParseVmNics: it assumes every device has `deviceInfo`, so the label is a plain string. In the source, a device whose `deviceInfo` is `None` would raise `AttributeError` at line 170. The same holds when the VM's own `virtual_machine.config` (line 165, distinct from `summary.config`) is unset, and for a missing `summary`, `summary.config` or `summary.runtime`. The source raises `AttributeError` in each case. The model's types always provide these objects and fold `virtual_machine.config.hardware.device` into `VirtualMachine.devices`.
- Python dicts keep insertion order, and Dafny maps have none, so the key order of a record is not modelled. Aliasing is not modelled either: the embedded adapter list is the same list object that `parse_vm_nics` returned.
- Only strings, booleans and the power-state enum are modelled as attribute values. Each attribute has the pyVmomi type the normaliser reads.
