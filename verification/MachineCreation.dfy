/** Creating a machine: its volumes, its interface, its row, its controller; a failure after the allocation
    gives the interface back. */
module MachineCreation {
  import opened Options
  import opened MachineTypes
  import ControllerModel
  import Controller
  import opened AddressTable
  import opened NetworkProvider

  datatype MachineVolume = MachineVolume(position: nat, container: nat)

  datatype NewMachine = NewMachine(row: Machine, volumes: seq<MachineVolume>, iface: NetworkInterface)

  /** The volume at each position is its container's. */
  predicate InOrder(volumes: seq<MachineVolume>, n: nat) {
    |volumes| == n && forall i :: 0 <= i < n ==> volumes[i].position == volumes[i].container == i
  }

  /** One volume per container, in container order, if every image's details are found. */
  method BuildVolumes(fetches: seq<bool>) returns (volumes: Option<seq<MachineVolume>>)
    ensures volumes.Some? <==> forall i :: 0 <= i < |fetches| ==> fetches[i]
    ensures volumes.Some? ==> InOrder(volumes.value, |fetches|)
  {
    var vs := [];
    for i := 0 to |fetches|
      invariant forall j :: 0 <= j < i ==> fetches[j]
      invariant InOrder(vs, i)
    {
      if !fetches[i] { return None; }
      vs := vs + [MachineVolume(|vs|, i)];
    }
    volumes := Some(vs);
  }

  /** No runtime yet, nothing released. */
  function NewResources(volumes: nat): ControllerModel.Resources {
    ControllerModel.Resources(false, ControllerModel.Held, seq(volumes, i => ControllerModel.Held))
  }

  class MachineService {
    const network: Provider
    var controllers: map<nat, Controller.MachineController>

    constructor (network: Provider)
      ensures this.network == network && controllers == map[]
    {
      this.network, controllers := network, map[];
    }

    /** What comes before the machine's row: the interface, kept only if the row can be inserted. The answers are
        those of the interface row, of the machine row, and of the kernel link and the row of a release. */
    method Acquire(createOk: bool, dbOk: bool, linkOk: bool, saveOk: bool) returns (iface: NetworkInterface?)
      requires network.Valid() && TableInv(network.View())
      modifies network, network.allocatedIPs
      ensures network.Valid() && TableInv(network.View())
      ensures iface != null <==> FirstFree(old(network.allocatedIPs[..]), 0) != -1 && createOk && dbOk
      ensures iface != null ==>
        network.View() == Allocated(old(network.View()), true) && network.issued == old(network.issued) + [iface]
      ensures iface == null ==>
        (network.allocatedIPs[..] == old(network.allocatedIPs[..]) ||
         (!dbOk && !linkOk && network.View() == Allocated(old(network.View()), true)))
    {
      ghost var before := network.View();
      AllocatedInv(before, createOk);
      iface := network.AllocateInterface(createOk);
      if iface != null && !dbOk {
        ReleasedInv(network.View(), |before.ifaces|, linkOk, saveOk);
        var released := network.ReleaseInterface(iface, |before.ifaces|, linkOk, saveOk);
        FailedCreateRestores(before, linkOk, saveOk);
        iface := null;
      }
    }

    /** The controller over the new row, subscribed to and put in the map. */
    method AddController(id: nat, row: Machine, volumes: nat)
      modifies this
      ensures id in controllers && fresh(controllers[id]) && controllers == old(controllers)[id := controllers[id]]
      ensures controllers[id].View() ==
        ControllerModel.Boot(row, NewResources(volumes)).(phase := ControllerModel.Registered)
      ensures !controllers[id].res.up && controllers[id].res.iface == ControllerModel.Held
      ensures |controllers[id].res.volumes| == volumes
      ensures forall i :: 0 <= i < volumes ==> controllers[id].res.volumes[i] == ControllerModel.Held
    {
      var controller := new Controller.MachineController(row, NewResources(volumes));
      controller.Subscribe();
      controller.Register();
      controllers := controllers[id := controller];
    }

    /** A new machine is Pending, wants what it is created for, and has a registered controller over its row. */
    method Create(id: nat, desired: DesiredState, fetches: seq<bool>,
                  createOk: bool, dbOk: bool, linkOk: bool, saveOk: bool)
      returns (machine: Option<NewMachine>)
      requires network.Valid() && TableInv(network.View())
      modifies this, network, network.allocatedIPs
      ensures network.Valid() && TableInv(network.View())
      ensures machine.Some? <==>
        (forall i :: 0 <= i < |fetches| ==> fetches[i]) &&
        FirstFree(old(network.allocatedIPs[..]), 0) != -1 && createOk && dbOk
      ensures machine.Some? ==>
        && network.View() == Allocated(old(network.View()), true)
        && network.issued == old(network.issued) + [machine.value.iface]
        && InOrder(machine.value.volumes, |fetches|) && machine.value.row == Machine(Pending, desired, false)
      ensures machine.Some? ==>
        && id in controllers && fresh(controllers[id]) && controllers == old(controllers)[id := controllers[id]]
        && controllers[id].View() ==
             ControllerModel.Boot(machine.value.row, NewResources(|fetches|)).(phase := ControllerModel.Registered)
        && controllers[id].phase == ControllerModel.Registered && controllers[id].row == machine.value.row
        && !controllers[id].res.up && controllers[id].res.iface == ControllerModel.Held
        && |controllers[id].res.volumes| == |fetches|
        && forall i :: 0 <= i < |fetches| ==> controllers[id].res.volumes[i] == ControllerModel.Held
      ensures machine.None? ==> controllers == old(controllers)
      ensures machine.None? ==>
        (network.allocatedIPs[..] == old(network.allocatedIPs[..]) ||
         (!dbOk && !linkOk && network.View() == Allocated(old(network.View()), true)))
    {
      var volumes := BuildVolumes(fetches);
      if volumes.None? { return None; }
      var iface := Acquire(createOk, dbOk, linkOk, saveOk);
      if iface == null { return None; }
      var row := Machine(Pending, desired, false);
      AddController(id, row, |volumes.value|);
      machine := Some(NewMachine(row, volumes.value, iface));
    }
  }
}
