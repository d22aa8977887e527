/** Device instructions exchanged between the scan generators, the request queue and the scan worker. */
module Instructions {
  type Device = string
  type ScanID = string

  datatype Option<+T> = None | Some(value: T)

  datatype WaitKind = ForMove | ForRead | ForTrigger

  /** `device` and `group` of an instruction; the worker falls back to the group when no device is named. */
  datatype Target = Devices(names: seq<Device>) | Group(name: string) | Unspecified

  /** `Blank` stands for a None that a generator yields as a placeholder. */
  datatype Action =
    | OpenScan(scanMotors: seq<Device>, priority: seq<Device>, numPoints: nat)
    | CloseScan
    | OpenScanDef
    | CloseScanDef
    | CloseScanGroup
    | Blank
    | Stage
    | Unstage
    | PreScan
    | BaselineReading
    | Rpc
    | Set(value: real)
    | Read
    | Trigger
    | Wait(kind: WaitKind)

  /** `waitGroup == ""` stands for an instruction without a wait group. */
  datatype Instr = Instr(
    action: Action,
    target: Target,
    waitGroup: string,
    diid: nat,
    pointID: Option<nat>,
    scanDefId: Option<string>)

  predicate Distinct<T(==)>(s: seq<T>) {
    forall i, j :: 0 <= i < j < |s| ==> s[i] != s[j]
  }

  function ToSet<T>(s: seq<T>): set<T> {
    set x | x in s
  }
}
