/** The endpoint descriptors that driver and host controller share. */
module OhciTypes {

  datatype Kind = CTRL | BULK | INT | ISO

  datatype Base = Absent | Idle | Operational

  /** The state byte of an endpoint: a base state and two pending-deletion bits. */
  datatype EdState = EdState(base: Base, del: bool, urbDel: bool)

  const ED_NEW := EdState(Absent, false, false)
  const ED_UNLINK := EdState(Idle, false, false)
  const ED_OPER := EdState(Operational, false, false)
  const ED_DEL := EdState(Absent, true, false)

  /** An endpoint descriptor.  The flag bits the hardware keeps in the low bits of its words are fields
      of their own. */
  class Ed {
    const kind: Kind
    var state: EdState
    var skip: bool
    var hwNextED: Ed?
    var edPrev: Ed?
    var edRmList: Ed?
    var intPeriod: nat
    var intLoad: nat
    var intInterval: nat
    var intBranch: nat

    constructor (kind: Kind)
      ensures this.kind == kind && state == ED_NEW && skip && hwNextED == null && edPrev == null
    {
      this.kind := kind;
      state, skip := ED_NEW, true;
      hwNextED, edPrev, edRmList := null, null, null;
      intPeriod, intLoad, intInterval, intBranch := 0, 0, 0, 0;
    }
  }

  /** Following hwNextED from p passes exactly the endpoints of path and ends. */
  ghost predicate Path(p: Ed?, path: seq<Ed>)
    reads (set ed | ed in path)`hwNextED
  {
    if path == [] then p == null else p == path[0] && Path(path[0].hwNextED, path[1..])
  }
}
