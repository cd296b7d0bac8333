/**
 The part of the vSphere object model that the inventory normaliser reads.
 Each datatype stands for a pyVmomi data object; an attribute that the API
 may leave unset (Python `None`) is an `Option`. The objects are read-only
 snapshots: nothing in the normaliser changes them.
 */
module VSphere {
  import opened Wrappers

  /** `vim.VirtualMachine.PowerState`. */
  datatype PowerState = PoweredOn | PoweredOff | Suspended

  /** `vim.vApp.ProductInfo`, reachable as `summary.config.product`. */
  datatype ProductInfo = ProductInfo(name: Option<string>, vendor: Option<string>)

  /** `vim.vm.Summary.ConfigSummary`, reachable as `summary.config`. */
  datatype ConfigSummary = ConfigSummary(
    name: string,
    template: bool,
    vmPathName: string,
    guestFullName: Option<string>,
    instanceUuid: Option<string>,
    uuid: Option<string>,
    annotation: Option<string>,
    product: Option<ProductInfo>)

  /** `vim.vm.QuestionInfo`: a question the VM waits for an operator to answer. */
  datatype QuestionInfo = QuestionInfo(text: string)

  /** `vim.vm.RuntimeInfo`, reachable as `summary.runtime`. */
  datatype RuntimeInfo = RuntimeInfo(powerState: PowerState, question: Option<QuestionInfo>)

  /** `vim.vm.Summary.GuestSummary`, reachable as `summary.guest`. */
  datatype GuestSummary = GuestSummary(ipAddress: Option<string>, toolsStatus: Option<string>)

  /** `vim.vm.Summary`. */
  datatype Summary = Summary(config: ConfigSummary, runtime: RuntimeInfo, guest: Option<GuestSummary>)

  /**
   An entry of `config.hardware.device`. The API's device classes form a
   hierarchy; here the two kinds the normaliser asks about are tags of their
   own (`VirtualVmxnet3` and every other `VirtualEthernetCard`), and every
   other device (disks, controllers, CD-ROMs, ...) is `Other`, whose attributes
   the normaliser never reads. `deviceLabel` is `deviceInfo.label`.
   */
  datatype Device =
    | Vmxnet3(macAddress: Option<string>, deviceLabel: string)
    | EthernetCard(macAddress: Option<string>, deviceLabel: string)
    | Other

  /** A `vim.VirtualMachine` as the normaliser sees it: its summary and its device list. */
  datatype VirtualMachine = VirtualMachine(summary: Summary, devices: seq<Device>)

  /** The `isinstance` test of the device filter: Vmxnet3 or Ethernet card. */
  predicate IsNetworkAdapter(d: Device) {
    d.Vmxnet3? || d.EthernetCard?
  }

  /** Python truthiness of an optional string: set and not empty. */
  predicate Truthy(s: Option<string>) {
    s.Some? && s.value != ""
  }
}
