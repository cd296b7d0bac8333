/**
 The VM record normaliser of `vmware_inventory.py`: the `VMWare` methods that
 turn enumerated virtual machines into flat, key/value inventory records.

 Each source method builds its result step by step (a dict filled key by key,
 a list appended to in a loop) and is modelled as a method doing the same;
 each is proved against a reference function (`SummaryRecord`,
 `AdapterRecords`, `VmRecord`) whose properties are stated as ensures
 clauses and lemmas.
 */
module VmwareInventory {
  import opened Wrappers
  import opened VSphere

  /** A value stored in a record, as the Python dicts hold it. */
  datatype Value =
    | Null                                // Python None, copied from an unset attribute
    | Text(text: string)
    | Flag(flag: bool)
    | Power(state: PowerState)
    | Records(items: seq<map<Key, Value>>)  // the embedded list of adapter dicts

  /**
   The dict keys the normaliser writes. Keys are a tag type rather than raw
   strings; `KeyName` gives the Python string each one stands for.
   */
  datatype Key =
    | Name | Template | Path | Guest | InstanceUuid | BiosUuid | Annotation | State
    | GuestIpAddress | VmwareTools | RuntimeQuestion | ProductName | Vendor | NetworkAdapters
    | MacAddress | Label

  /** The literal key string of the Python dict. */
  function KeyName(k: Key): string {
    match k
    case Name => "Name"
    case Template => "Template"
    case Path => "Path"
    case Guest => "Guest"
    case InstanceUuid => "Instance UUID"
    case BiosUuid => "Bios UUID"
    case Annotation => "Annotation"
    case State => "State"
    case GuestIpAddress => "Guest IP Address"
    case VmwareTools => "VMware-tools"
    case RuntimeQuestion => "Runtime Question"
    case ProductName => "Product Name"
    case Vendor => "Vendor"
    case NetworkAdapters => "Network Adapters"
    case MacAddress => "Mac Address"
    case Label => "Label"
  }

  /** Distinct keys stand for distinct Python key strings, so a map over `Key` loses nothing. */
  lemma KeyNameInjective(k1: Key, k2: Key)
    requires k1 != k2
    ensures KeyName(k1) != KeyName(k2)
  {
  }

  /** One flat record: a Python dict keyed by field name. */
  type Record = map<Key, Value>

  /** The sentinel written in place of a missing annotation, IP address or tools status. */
  const NoneText := "None"

  /** An optional attribute copied verbatim: `None` stays `None`. */
  function FromOption(s: Option<string>): Value {
    if s.Some? then Text(s.value) else Null
  }

  /** The keys every VM record carries, whatever its summary holds. */
  const FixedKeys: set<Key> :=
    {Name, Template, Path, Guest, InstanceUuid, BiosUuid, Annotation, State}

  /** The keys of the record built from summary `s`: the optional ones only when their sub-object exists. */
  function SummaryKeys(s: Summary): set<Key> {
    FixedKeys
    + (if s.guest.Some? then {GuestIpAddress, VmwareTools} else {})
    + (if s.runtime.question.Some? then {RuntimeQuestion} else {})
    + (if s.config.product.Some? then {ProductName, Vendor} else {})
  }

  /*****************************************************************************
   parse_vm_summary
   *****************************************************************************/

  /** The fields every record carries: identity, annotation and power state. */
  function FixedFields(c: ConfigSummary, r: RuntimeInfo): (row: Record)
    ensures row.Keys == FixedKeys
  {
    map[
      Name := Text(c.name),
      Template := Flag(c.template),
      Path := Text(c.vmPathName),
      Guest := FromOption(c.guestFullName),
      InstanceUuid := FromOption(c.instanceUuid),
      BiosUuid := FromOption(c.uuid),
      Annotation := Text(if Truthy(c.annotation) then c.annotation.value else NoneText),
      State := Power(r.powerState)]
  }

  /**
   The record `parse_vm_summary` produces for summary `s`: exactly the keys of
   `SummaryKeys(s)`. The value of each is stated by the lemmas below.
   */
  function SummaryRecord(s: Summary): (row: Record)
    ensures row.Keys == SummaryKeys(s)
  {
    var row := FixedFields(s.config, s.runtime);
    var row :=
      if s.guest.Some? then
        var g := s.guest.value;
        row[GuestIpAddress := Text(if Truthy(g.ipAddress) then g.ipAddress.value else NoneText)]
           [VmwareTools := Text(if g.toolsStatus.Some? then g.toolsStatus.value else NoneText)]
      else row;
    var row := if s.runtime.question.Some? then row[RuntimeQuestion := Text(s.runtime.question.value.text)] else row;
    if s.config.product.Some? then
      row[ProductName := FromOption(s.config.product.value.name)][Vendor := FromOption(s.config.product.value.vendor)]
    else row
  }

  /**
   `parse_vm_summary`: starts from an empty dict and assigns the keys one by
   one, in the source's order and under the source's conditions.
   */
  method ParseVmSummary(vm: VirtualMachine) returns (row: Record)
    ensures row == SummaryRecord(vm.summary)
  {
    row := map[];

    var summary := vm.summary;
    row := row[Name := Text(summary.config.name)];
    row := row[Template := Flag(summary.config.template)];
    row := row[Path := Text(summary.config.vmPathName)];
    row := row[Guest := FromOption(summary.config.guestFullName)];
    row := row[InstanceUuid := FromOption(summary.config.instanceUuid)];
    row := row[BiosUuid := FromOption(summary.config.uuid)];

    var annotation := summary.config.annotation;
    if Truthy(annotation) {
      row := row[Annotation := Text(annotation.value)];
    } else {
      row := row[Annotation := Text(NoneText)];
    }

    row := row[State := Power(summary.runtime.powerState)];
    assert row == FixedFields(summary.config, summary.runtime);

    if summary.guest.Some? {
      var ipAddress := summary.guest.value.ipAddress;
      var toolsVersion := summary.guest.value.toolsStatus;
      if Truthy(ipAddress) {
        row := row[GuestIpAddress := Text(ipAddress.value)];
      } else {
        row := row[GuestIpAddress := Text(NoneText)];
      }
      if toolsVersion.Some? {
        row := row[VmwareTools := Text(toolsVersion.value)];
      } else {
        row := row[VmwareTools := Text(NoneText)];
      }
    }
    if summary.runtime.question.Some? {
      row := row[RuntimeQuestion := Text(summary.runtime.question.value.text)];
    }
    var product := summary.config.product;
    if product.Some? {
      row := row[ProductName := FromOption(product.value.name)];
      row := row[Vendor := FromOption(product.value.vendor)];
    }
  }

  /** The identity fields and the power state are copied verbatim, `None` included. */
  lemma PassthroughFields(s: Summary)
    ensures var row := SummaryRecord(s);
      && row[Name] == Text(s.config.name)
      && row[Template] == Flag(s.config.template)
      && row[Path] == Text(s.config.vmPathName)
      && row[Guest] == FromOption(s.config.guestFullName)
      && row[InstanceUuid] == FromOption(s.config.instanceUuid)
      && row[BiosUuid] == FromOption(s.config.uuid)
      && row[State] == Power(s.runtime.powerState)
  {
  }

  /** The annotation is kept when it is a non-empty string and is the sentinel otherwise. */
  lemma AnnotationOrSentinel(s: Summary)
    ensures Truthy(s.config.annotation) ==> SummaryRecord(s)[Annotation] == Text(s.config.annotation.value)
    ensures !Truthy(s.config.annotation) ==> SummaryRecord(s)[Annotation] == Text(NoneText)
  {
  }

  /**
   With guest info present, the IP address falls back to the sentinel when it
   is unset or empty, while the tools status falls back only when it is unset.
   */
  lemma GuestFieldValues(s: Summary)
    requires s.guest.Some?
    ensures Truthy(s.guest.value.ipAddress) ==> SummaryRecord(s)[GuestIpAddress] == Text(s.guest.value.ipAddress.value)
    ensures !Truthy(s.guest.value.ipAddress) ==> SummaryRecord(s)[GuestIpAddress] == Text(NoneText)
    ensures s.guest.value.toolsStatus.Some? ==> SummaryRecord(s)[VmwareTools] == Text(s.guest.value.toolsStatus.value)
    ensures s.guest.value.toolsStatus.None? ==> SummaryRecord(s)[VmwareTools] == Text(NoneText)
  {
  }

  /** The pending question's text, and the product's name and vendor verbatim, when they exist. */
  lemma QuestionAndProductValues(s: Summary)
    ensures s.runtime.question.Some? ==> SummaryRecord(s)[RuntimeQuestion] == Text(s.runtime.question.value.text)
    ensures s.config.product.Some? ==>
              SummaryRecord(s)[ProductName] == FromOption(s.config.product.value.name)
              && SummaryRecord(s)[Vendor] == FromOption(s.config.product.value.vendor)
  {
  }

  /** Guest info gates the IP address and tools status together: both keys or neither. */
  lemma GuestKeysTogether(s: Summary)
    ensures GuestIpAddress in SummaryRecord(s) <==> s.guest.Some?
    ensures VmwareTools in SummaryRecord(s) <==> s.guest.Some?
  {
  }

  /** The runtime question key exists exactly when a question is pending. */
  lemma QuestionKeyPresence(s: Summary)
    ensures RuntimeQuestion in SummaryRecord(s) <==> s.runtime.question.Some?
  {
  }

  /** Product name and vendor come as a pair, exactly when product metadata exists. */
  lemma ProductKeysTogether(s: Summary)
    ensures ProductName in SummaryRecord(s) <==> s.config.product.Some?
    ensures Vendor in SummaryRecord(s) <==> s.config.product.Some?
  {
  }

  /*****************************************************************************
   parse_vm_nics
   *****************************************************************************/

  /** The `{Mac Address, Label}` dict built for one network adapter. */
  function AdapterRecord(d: Device): Record
    requires IsNetworkAdapter(d)
  {
    map[MacAddress := FromOption(d.macAddress), Label := Text(d.deviceLabel)]
  }

  /** The adapter list of `parse_vm_nics`: one record per network adapter, in device order. */
  function AdapterRecords(devices: seq<Device>): (nics: seq<Record>)
    ensures |nics| <= |devices|
  {
    if devices == [] then []
    else
      var rest := AdapterRecords(devices[1..]);
      if IsNetworkAdapter(devices[0]) then [AdapterRecord(devices[0])] + rest else rest
  }

  /** Building the list over a concatenation of device lists concatenates the lists. */
  lemma {:induction false} AdapterRecordsAppend(a: seq<Device>, b: seq<Device>)
    ensures AdapterRecords(a + b) == AdapterRecords(a) + AdapterRecords(b)
  {
    if a == [] {
      assert a + b == b;
    } else {
      assert (a + b)[1..] == a[1..] + b;
      AdapterRecordsAppend(a[1..], b);
    }
  }

  /**
   `parse_vm_nics`: loops over the device list and appends a freshly built
   dict for every network adapter.
   */
  method ParseVmNics(vm: VirtualMachine) returns (networkAdapters: seq<Record>)
    ensures networkAdapters == AdapterRecords(vm.devices)
  {
    networkAdapters := [];
    var devices := vm.devices;
    for i := 0 to |devices|
      invariant networkAdapters == AdapterRecords(devices[..i])
    {
      var dev := devices[i];
      if IsNetworkAdapter(dev) {
        var nic: Record := map[];
        nic := nic[MacAddress := FromOption(dev.macAddress)];
        nic := nic[Label := Text(dev.deviceLabel)];
        networkAdapters := networkAdapters + [nic];
      }
      assert devices[..i + 1] == devices[..i] + [dev];
      AdapterRecordsAppend(devices[..i], [dev]);
    }
    assert devices[..|devices|] == devices;
  }

  /** Positions `ps` + 1: the positions of a list seen from one element earlier. */
  ghost function Shift(ps: seq<nat>): seq<nat>
  {
    seq(|ps|, i requires 0 <= i < |ps| => ps[i] + 1)
  }

  /** The positions in `devices` that hold a network adapter, first to last. */
  ghost function AdapterPositions(devices: seq<Device>): seq<nat> {
    if devices == [] then []
    else
      var rest := Shift(AdapterPositions(devices[1..]));
      if IsNetworkAdapter(devices[0]) then [0] + rest else rest
  }

  ghost predicate StrictlyIncreasing(ps: seq<nat>) {
    forall i, j :: 0 <= i < j < |ps| ==> ps[i] < ps[j]
  }

  /** Every position `ps` lists holds a network adapter of `devices`. */
  ghost predicate AdapterPositionsOnly(devices: seq<Device>, ps: seq<nat>) {
    forall i :: 0 <= i < |ps| ==> ps[i] < |devices| && IsNetworkAdapter(devices[ps[i]])
  }

  /** Every position of `devices` holding a network adapter is listed in `ps`. */
  ghost predicate AllAdapterPositions(devices: seq<Device>, ps: seq<nat>) {
    forall k :: 0 <= k < |devices| && IsNetworkAdapter(devices[k]) ==> k in ps
  }

  /** The adapter positions are listed in device order, each once. */
  lemma {:induction false} AdapterPositionsIncreasing(devices: seq<Device>)
    ensures StrictlyIncreasing(AdapterPositions(devices))
  {
    if devices != [] {
      AdapterPositionsIncreasing(devices[1..]);
      var rest := Shift(AdapterPositions(devices[1..]));
      assert StrictlyIncreasing(rest);
      assert StrictlyIncreasing([0] + rest) by {
        forall i, j | 0 <= i < j < |[0] + rest|
          ensures ([0] + rest)[i] < ([0] + rest)[j]
        {
          if i > 0 {
            assert ([0] + rest)[i] == rest[i - 1];
          }
          assert ([0] + rest)[j] == rest[j - 1];
        }
      }
    }
  }

  /** Only positions of network adapters are listed. */
  lemma {:induction false} AdapterPositionsSound(devices: seq<Device>)
    ensures AdapterPositionsOnly(devices, AdapterPositions(devices))
  {
    if devices != [] {
      var tail := devices[1..];
      AdapterPositionsSound(tail);
      var tailPs := AdapterPositions(tail);
      var ps := AdapterPositions(devices);
      var h := if IsNetworkAdapter(devices[0]) then 1 else 0;
      forall i | h <= i < |ps|
        ensures ps[i] < |devices| && IsNetworkAdapter(devices[ps[i]])
      {
        assert ps[i] == tailPs[i - h] + 1;
        assert devices[ps[i]] == tail[tailPs[i - h]];
      }
    }
  }

  /** Every network adapter's position is listed. */
  lemma {:induction false} AdapterPositionsComplete(devices: seq<Device>)
    ensures AllAdapterPositions(devices, AdapterPositions(devices))
  {
    if devices != [] {
      var tail := devices[1..];
      AdapterPositionsComplete(tail);
      var tailPs := AdapterPositions(tail);
      var ps := AdapterPositions(devices);
      var h := if IsNetworkAdapter(devices[0]) then 1 else 0;
      forall k | 0 <= k < |devices| && IsNetworkAdapter(devices[k])
        ensures k in ps
      {
        if k > 0 {
          assert tail[k - 1] == devices[k];
          var m :| 0 <= m < |tailPs| && tailPs[m] == k - 1;
          assert ps[m + h] == k;
        }
      }
    }
  }

  /**
   The adapter list holds, at index `i`, the record of the device at the
   `i`-th network-adapter position: the adapters in device order, each once,
   and nothing built from any other device kind.
   */
  lemma {:induction false} AdapterRecordsInDeviceOrder(devices: seq<Device>)
    ensures AdapterPositionsOnly(devices, AdapterPositions(devices))
    ensures |AdapterRecords(devices)| == |AdapterPositions(devices)|
    ensures forall i :: 0 <= i < |AdapterPositions(devices)| ==>
              AdapterRecords(devices)[i] == AdapterRecord(devices[AdapterPositions(devices)[i]])
  {
    AdapterPositionsSound(devices);
    if devices != [] {
      var tail := devices[1..];
      AdapterRecordsInDeviceOrder(tail);
      var nics, ps := AdapterRecords(devices), AdapterPositions(devices);
      var tailNics, tailPs := AdapterRecords(tail), AdapterPositions(tail);
      if IsNetworkAdapter(devices[0]) {
        forall i | 1 <= i < |ps|
          ensures nics[i] == AdapterRecord(devices[ps[i]])
        {
          assert nics[i] == tailNics[i - 1];
          assert ps[i] == tailPs[i - 1] + 1;
          assert devices[ps[i]] == tail[tailPs[i - 1]];
        }
      } else {
        forall i | 0 <= i < |ps|
          ensures nics[i] == AdapterRecord(devices[ps[i]])
        {
          assert ps[i] == tailPs[i] + 1;
          assert devices[ps[i]] == tail[tailPs[i]];
        }
      }
    }
  }

  /** The adapter list is empty exactly when the VM has no network adapter. */
  lemma {:induction false} AdapterRecordsEmptyIffNone(devices: seq<Device>)
    ensures AdapterRecords(devices) == [] <==> forall k :: 0 <= k < |devices| ==> !IsNetworkAdapter(devices[k])
  {
    AdapterRecordsInDeviceOrder(devices);
    if AdapterRecords(devices) != [] {
      var p := AdapterPositions(devices)[0];
      assert IsNetworkAdapter(devices[p]);
    } else {
      AdapterPositionsComplete(devices);
      assert AdapterPositions(devices) == [];
    }
  }

  /*****************************************************************************
   parse_vm_inventory and get_parsed_inventory
   *****************************************************************************/

  /**
   The record of one VM in the parsed inventory: its summary record with the
   adapter list embedded under `Network Adapters`, overwriting no summary key.
   */
  function VmRecord(vm: VirtualMachine): (r: Record)
    ensures r.Keys == SummaryKeys(vm.summary) + {NetworkAdapters}
    ensures r[NetworkAdapters] == Records(AdapterRecords(vm.devices))
    ensures r - {NetworkAdapters} == SummaryRecord(vm.summary)
  {
    SummaryRecord(vm.summary)[NetworkAdapters := Records(AdapterRecords(vm.devices))]
  }

  /**
   `parse_vm_inventory`: one record per VM, in input order, each the VM's
   summary record with its adapter list embedded.
   */
  method ParseVmInventory(virtualMachines: seq<VirtualMachine>) returns (parsedVms: seq<Record>)
    ensures |parsedVms| == |virtualMachines|
    ensures forall i :: 0 <= i < |virtualMachines| ==> parsedVms[i] == VmRecord(virtualMachines[i])
  {
    parsedVms := [];
    for i := 0 to |virtualMachines|
      invariant |parsedVms| == i
      invariant forall j :: 0 <= j < i ==> parsedVms[j] == VmRecord(virtualMachines[j])
    {
      var virtualMachine := virtualMachines[i];
      var parsedVmSummary := ParseVmSummary(virtualMachine);
      var parsedVmNics := ParseVmNics(virtualMachine);
      parsedVmSummary := parsedVmSummary[NetworkAdapters := Records(parsedVmNics)];
      parsedVms := parsedVms + [parsedVmSummary];
    }
  }

  /** What `get_parsed_inventory` returns: the parsed list, or `False`. */
  datatype Inventory = Parsed(records: seq<Record>) | NoInventory

  /**
   The decision of `get_parsed_inventory` once enumeration has produced
   `virtualMachines`: the parsed list when it is non-empty, `False` otherwise.
   */
  method GetParsedInventory(virtualMachines: seq<VirtualMachine>) returns (result: Inventory)
    ensures result.NoInventory? <==> virtualMachines == []
    ensures result.Parsed? ==>
              |result.records| == |virtualMachines|
              && forall i :: 0 <= i < |virtualMachines| ==> result.records[i] == VmRecord(virtualMachines[i])
  {
    var parsedVms := ParseVmInventory(virtualMachines);
    if parsedVms != [] {
      result := Parsed(parsedVms);
    } else {
      result := NoInventory;
    }
  }
}
