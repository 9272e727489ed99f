// The hub as the agent's client sees it: WorkStatus and ManifestWork objects by namespace and name,
// and calls that may fail before or after taking effect.

module Hub {
  import opened Base
  import Objects

  type Labels = map<string, string>

  datatype SourceRef = SourceRef(group: string, version: string, resource: string, kind: string, name: string, namespace: string)

  datatype ManifestWork = ManifestWork(labels: Labels)

  // currencyTime is StatusDetails.LastCurrencyUpdateTime in Unix seconds.
  datatype WorkStatus = WorkStatus(labels: Labels, owner: Option<string>, sourceRef: SourceRef, currencyTime: int,
                                   status: Option<Objects.RawStatus>)

  datatype ObjectKey = ObjectKey(namespace: string, name: string)

  // created counts the creations that took effect, a history variable.
  datatype State = State(workStatuses: map<ObjectKey, WorkStatus>, manifestWorks: map<ObjectKey, ManifestWork>,
                         created: multiset<ObjectKey>)

  // A call goes through, fails without effect, or takes effect and then fails.
  datatype Fault = NoFault | FailsBefore | FailsAfter

  datatype Error = NotFound | AlreadyExists | Transient
  datatype Fetched<+T> = Got(value: T) | NotGot(error: Error)
  datatype Called = Called(hub: State, error: Option<Error>)

  function Fetch<T>(m: map<ObjectKey, T>, key: ObjectKey, fault: Fault): Fetched<T> {
    if fault != NoFault then NotGot(Transient)
    else if key in m then Got(m[key]) else NotGot(NotFound)
  }

  // The outcome of a write whose effect is the given state.
  function Write(h: State, fault: Fault, refused: Option<Error>, effect: State): Called {
    if fault == FailsBefore then Called(h, Some(Transient))
    else if refused.Some? then Called(h, refused)
    else Called(effect, if fault == FailsAfter then Some(Transient) else None)
  }

  function Create(h: State, key: ObjectKey, ws: WorkStatus, fault: Fault): Called {
    Write(h, fault, if key in h.workStatuses then Some(AlreadyExists) else None,
          h.(workStatuses := h.workStatuses[key := ws], created := h.created + multiset{key}))
  }

  function Modify(h: State, key: ObjectKey, ws: WorkStatus, fault: Fault): Called {
    Write(h, fault, if key in h.workStatuses then None else Some(NotFound),
          h.(workStatuses := h.workStatuses[key := ws]))
  }

  // merge patch of one label
  function PatchLabel(h: State, key: ObjectKey, labelKey: string, value: string, fault: Fault): Called {
    var ws := GetOr(h.workStatuses, key, ZERO_WORK_STATUS);
    Modify(h, key, ws.(labels := ws.labels[labelKey := value]), fault)
  }

  // status subresource: nothing but the status changes
  function UpdateStatus(h: State, key: ObjectKey, status: Objects.RawStatus, fault: Fault): Called {
    Modify(h, key, GetOr(h.workStatuses, key, ZERO_WORK_STATUS).(status := Some(status)), fault)
  }

  function Delete(h: State, key: ObjectKey, fault: Fault): Called {
    Write(h, fault, if key in h.workStatuses then None else Some(NotFound),
          h.(workStatuses := h.workStatuses - {key}))
  }

  const ZERO_WORK_STATUS := WorkStatus(map[], None, SourceRef("", "", "", "", "", ""), 0, None)

  class Client {
    var hub: State

    constructor (hub: State)
      ensures this.hub == hub
    {
      this.hub := hub;
    }

    method GetWorkStatus(key: ObjectKey, fault: Fault) returns (r: Fetched<WorkStatus>)
      ensures r == Fetch(hub.workStatuses, key, fault)
    {
      r := Fetch(hub.workStatuses, key, fault);
    }

    method GetManifestWork(name: string, namespace: string, fault: Fault) returns (r: Fetched<ManifestWork>)
      ensures r == Fetch(hub.manifestWorks, ObjectKey(namespace, name), fault)
    {
      r := Fetch(hub.manifestWorks, ObjectKey(namespace, name), fault);
    }

    method CreateWorkStatus(key: ObjectKey, ws: WorkStatus, fault: Fault) returns (error: Option<Error>)
      modifies this
      ensures Called(hub, error) == Create(old(hub), key, ws, fault)
    {
      var r := Create(hub, key, ws, fault);
      hub, error := r.hub, r.error;
    }

    method Patch(key: ObjectKey, labelKey: string, value: string, fault: Fault) returns (error: Option<Error>)
      modifies this
      ensures Called(hub, error) == PatchLabel(old(hub), key, labelKey, value, fault)
    {
      var r := PatchLabel(hub, key, labelKey, value, fault);
      hub, error := r.hub, r.error;
    }

    method StatusUpdate(key: ObjectKey, status: Objects.RawStatus, fault: Fault) returns (error: Option<Error>)
      modifies this
      ensures Called(hub, error) == UpdateStatus(old(hub), key, status, fault)
    {
      var r := UpdateStatus(hub, key, status, fault);
      hub, error := r.hub, r.error;
    }

    method DeleteWorkStatus(key: ObjectKey, fault: Fault) returns (error: Option<Error>)
      modifies this
      ensures Called(hub, error) == Delete(old(hub), key, fault)
    {
      var r := Delete(hub, key, fault);
      hub, error := r.hub, r.error;
    }
  }
}
