/** Clients of container images follow the readiness of their pods. */
module Pods {
  import opened Values

  datatype Image = Image(name: string, kind: string)

  const FUNCTION := "function"
  const SERVICE := "service"

  /** The clients of one registered image; a client is known by its address. */
  datatype Clients = Clients(exec: Option<string>, svc: Option<string>)

  type Images = map<Image, Clients>

  datatype SetResult = Stored | Refused | NilPointer

  /** What SetClient comes to; `dials` says whether the client can be created. */
  function SettingResult(d: Images, image: Image, dials: bool): SetResult {
    if (image.kind != FUNCTION && image.kind != SERVICE) || !dials then Refused
    else if image !in d then NilPointer
    else Stored
  }

  function WithClient(d: Images, image: Image, address: string, dials: bool): Images {
    if SettingResult(d, image, dials) != Stored then d
    else if image.kind == FUNCTION then d[image := d[image].(exec := Some(address))]
    else d[image := d[image].(svc := Some(address))]
  }

  function WithoutClient(d: Images, image: Image): Images {
    if image in d then d[image := Clients(None, None)] else d
  }

  class ImageStore {
    var d: Images

    constructor ()
      ensures d == map[]
    {
      d := map[];
    }

    predicate Exists(image: Image)
      reads this
    {
      image in d
    }

    /** An image that is already there keeps its clients. */
    method Create(image: Image)
      modifies this
      ensures image in d && d.Keys == old(d.Keys) + {image}
      ensures forall i :: i in d ==> d[i] == if i in old(d) then old(d)[i] else Clients(None, None)
    {
      if image !in d {
        d := d[image := Clients(None, None)];
      }
    }

    method Delete(image: Image)
      modifies this
      ensures d == old(d) - {image}
    {
      d := d - {image};
    }

    method SetClient(image: Image, address: string, dials: bool) returns (r: SetResult)
      modifies this
      ensures r == SettingResult(old(d), image, dials) && d == WithClient(old(d), image, address, dials)
    {
      if image.kind == FUNCTION {
        if !dials {
          return Refused;
        }
        if image !in d {
          return NilPointer;
        }
        d := d[image := d[image].(exec := Some(address))];
        return Stored;
      } else if image.kind == SERVICE {
        if !dials {
          return Refused;
        }
        if image !in d {
          return NilPointer;
        }
        d := d[image := d[image].(svc := Some(address))];
        return Stored;
      } else {
        return Refused;
      }
    }

    method DeleteClient(image: Image)
      modifies this
      ensures d == WithoutClient(old(d), image)
    {
      if image !in d {
        return;
      }
      d := d[image := Clients(None, None)];
    }

    function GetFnClient(image: Image): (c: Option<string>)
      reads this
    {
      if image in d then d[image].exec else None
    }

    function GetSvcClient(image: Image): (c: Option<string>)
      reads this
    {
      if image in d then d[image].svc else None
    }
  }

  /** A new image manager registers its images; those known keep their clients. */
  method RegisterAll(store: ImageStore, images: seq<Image>)
    modifies store
    ensures store.d.Keys == old(store.d.Keys) + (set i | i in images)
    ensures forall i :: i in store.d ==>
              store.d[i] == if i in old(store.d) then old(store.d)[i] else Clients(None, None)
  {
    for n := 0 to |images|
      invariant store.d.Keys == old(store.d.Keys) + (set i | i in images[..n])
      invariant forall i :: i in store.d ==>
                  store.d[i] == if i in old(store.d) then old(store.d)[i] else Clients(None, None)
    {
      assert images[..n + 1] == images[..n] + [images[n]];
      store.Create(images[n]);
    }
    assert images[..|images|] == images;
  }

  // --------------------------------------------------------------------- applyPod

  datatype Condition = Condition(ctype: string, status: string)
  datatype Pod = Pod(phase: string, conditions: seq<Condition>)

  /** What the API server answers: the result of Apply, the pod read back, and whether a
      client can be created right now. */
  datatype Report = Report(applies: bool, got: Option<Pod>, dials: bool)

  /** The pod could be read back and runs. */
  predicate Runs(report: Report) { report.got.Some? && report.got.value.phase == "Running" }

  predicate IsReady(c: Condition) { c.ctype == "Ready" && c.status == "True" }

  /** The client of an image, whichever kind it has. */
  function ClientOf(d: Images, image: Image): Option<string> {
    if image !in d then None
    else if image.kind == FUNCTION then d[image].exec
    else d[image].svc
  }

  datatype ApplyResult = Applied | Errored | Panicked

  method ApplyPod(store: ImageStore, image: Image, podName: string, report: Report) returns (r: ApplyResult)
    modifies store
    ensures store.d == PodApplied(old(store.d), image, podName, report)
    ensures r == Panicked <==>
              image !in old(store.d) && (image.kind == FUNCTION || image.kind == SERVICE) &&
              report.applies && report.dials &&
              report.got.Some? && report.got.value.phase == "Running" && SomeReady(report.got.value.conditions)
    ensures r == Errored <==> (image.kind != FUNCTION && image.kind != SERVICE) || !report.applies || report.got.None?
  {
    if image.kind != FUNCTION && image.kind != SERVICE {
      return Errored;
    }
    if !report.applies {
      return Errored;
    }
    if report.got.None? {
      store.DeleteClient(image);
      return Errored;
    }
    var pod := report.got.value;
    if pod.phase != "Running" {
      store.DeleteClient(image);
      return Applied;
    }
    assert pod.conditions[0..] == pod.conditions;
    for n := 0 to |pod.conditions|
      invariant image in old(store.d) <==> image in store.d
      invariant SomeReady(pod.conditions) <==> SomeReady(pod.conditions[n..])
      invariant Ready(old(store.d), image, podName, pod.conditions, report.dials)
                == Ready(store.d, image, podName, pod.conditions[n..], report.dials)
    {
      assert pod.conditions[n..][1..] == pod.conditions[n + 1..];
      ReadyHead(pod.conditions[n..]);
      if pod.conditions[n].ctype == "Ready" && pod.conditions[n].status == "True" {
        var result := store.SetClient(image, podName, report.dials);
        return if result.NilPointer? then Panicked else Applied;
      }
      store.DeleteClient(image);
    }
    return Applied;
  }

  /** The condition loop: each condition before the first Ready=True deletes the client. */
  function Ready(d: Images, image: Image, podName: string, conds: seq<Condition>, dials: bool): Images {
    if conds == [] then d
    else if IsReady(conds[0]) then WithClient(d, image, podName, dials)
    else Ready(WithoutClient(d, image), image, podName, conds[1..], dials)
  }

  function PodApplied(d: Images, image: Image, podName: string, report: Report): Images {
    if (image.kind != FUNCTION && image.kind != SERVICE) || !report.applies then d
    else if report.got.None? || report.got.value.phase != "Running" then WithoutClient(d, image)
    else Ready(d, image, podName, report.got.value.conditions, report.dials)
  }

  ghost predicate SomeReady(conds: seq<Condition>) {
    exists i :: 0 <= i < |conds| && conds[i].ctype == "Ready" && conds[i].status == "True"
  }

  lemma ReadyHead(conds: seq<Condition>)
    requires conds != []
    ensures SomeReady(conds) <==> IsReady(conds[0]) || SomeReady(conds[1..])
  {
    if i :| 0 <= i < |conds| && IsReady(conds[i]) {
      assert i > 0 ==> conds[1..][i - 1] == conds[i];
    }
    if i :| 0 <= i < |conds[1..]| && IsReady(conds[1..][i]) {
      assert conds[i + 1] == conds[1..][i];
    }
  }

  /** What the loop leaves for the image itself. */
  lemma {:induction false} ReadyMeaning(d: Images, image: Image, podName: string, conds: seq<Condition>, dials: bool)
    requires image in d && (image.kind == FUNCTION || image.kind == SERVICE)
    ensures image in Ready(d, image, podName, conds, dials)
    ensures ClientOf(Ready(d, image, podName, conds, dials), image) ==
            if conds == [] then ClientOf(d, image)
            else if !SomeReady(conds) then None
            else if dials then Some(podName)
            else if IsReady(conds[0]) then ClientOf(d, image)
            else None
  {
    if conds != [] && !IsReady(conds[0]) {
      ReadyMeaning(WithoutClient(d, image), image, podName, conds[1..], dials);
    }
    if conds != [] {
      ReadyHead(conds);
    }
  }

  /** Client agreement: for a registered image whose pod was applied, the client is gone when
      the pod cannot be read or does not run; while it runs with at least one condition and
      clients can be created, there is one iff some condition says Ready=True. */
  lemma ClientAgreement(d: Images, image: Image, podName: string, report: Report)
    requires image in d && (image.kind == FUNCTION || image.kind == SERVICE) && report.applies
    ensures var d' := PodApplied(d, image, podName, report);
            && image in d'
            && (!Runs(report) ==> ClientOf(d', image) == None)
            && (Runs(report) && report.got.value.conditions != [] && report.dials ==>
                  ClientOf(d', image) == if SomeReady(report.got.value.conditions) then Some(podName) else None)
            && (Runs(report) && report.got.value.conditions == [] ==> d' == d)
  {
    if Runs(report) {
      ReadyMeaning(d, image, podName, report.got.value.conditions, report.dials);
    }
  }

  /** The order of the conditions matters iff no client can be created although the pod is
      ready: then a client survives exactly when the first condition is the ready one. */
  lemma ConditionOrder(d: Images, image: Image, podName: string, conds: seq<Condition>, conds': seq<Condition>,
                       dials: bool)
    requires image in d && (image.kind == FUNCTION || image.kind == SERVICE) && multiset(conds) == multiset(conds')
    ensures ClientOf(Ready(d, image, podName, conds, dials), image)
            == ClientOf(Ready(d, image, podName, conds', dials), image)
            <==> (dials || !SomeReady(conds) || ClientOf(d, image) == None || IsReady(conds[0]) == IsReady(conds'[0]))
  {
    ReadyMeaning(d, image, podName, conds, dials);
    ReadyMeaning(d, image, podName, conds', dials);
    SameReady(conds, conds');
    SameReady(conds', conds);
    assert |conds| == |multiset(conds)| == |multiset(conds')| == |conds'|;
  }

  lemma SameReady(conds: seq<Condition>, conds': seq<Condition>)
    requires multiset(conds) == multiset(conds')
    ensures SomeReady(conds) ==> SomeReady(conds')
  {
    if i :| 0 <= i < |conds| && IsReady(conds[i]) {
      assert conds[i] in multiset(conds');
    }
  }

  // ------------------------------------------------------------------- whole runs

  datatype Event =
    | Registered(image: Image)
    | Removed(image: Image)
    | PodEvent(image: Image, podName: string, report: Report)

  function Next(d: Images, e: Event): Images {
    match e
    case Registered(image) => if image in d then d else d[image := Clients(None, None)]
    case Removed(image) => d - {image}
    case PodEvent(image, podName, report) => PodApplied(d, image, podName, report)
  }

  function After(events: seq<Event>): Images
    decreases |events|
  {
    if events == [] then map[] else Next(After(events[..|events| - 1]), events[|events| - 1])
  }

  /** A function image has no service client, and a service image no function client. */
  ghost predicate KindsApart(d: Images) {
    forall image :: image in d ==>
      (image.kind == FUNCTION ==> d[image].svc.None?) && (image.kind == SERVICE ==> d[image].exec.None?)
  }

  lemma {:induction false} ReadyKeepsApart(d: Images, image: Image, podName: string, conds: seq<Condition>, dials: bool)
    requires KindsApart(d)
    ensures KindsApart(Ready(d, image, podName, conds, dials))
  {
    if conds != [] && !IsReady(conds[0]) {
      ReadyKeepsApart(WithoutClient(d, image), image, podName, conds[1..], dials);
    }
  }

  lemma {:induction false} ReadyKeepsOthers(d: Images, image: Image, podName: string, conds: seq<Condition>,
                                           dials: bool)
    ensures Ready(d, image, podName, conds, dials).Keys == d.Keys
    ensures forall other :: other in d && other != image ==> Ready(d, image, podName, conds, dials)[other] == d[other]
  {
    if conds != [] && !IsReady(conds[0]) {
      ReadyKeepsOthers(WithoutClient(d, image), image, podName, conds[1..], dials);
    }
  }

  /** An image that is neither a function nor a service is left alone by its pod and never
      given a client; a client that can be created is kept iff the image is registered. */
  lemma OnlyKnownKinds(d: Images, image: Image, podName: string, dials: bool, report: Report)
    ensures image.kind != "function" && image.kind != "service" ==>
              && PodApplied(d, image, podName, report) == d && WithClient(d, image, podName, dials) == d
              && SettingResult(d, image, dials) == Refused
    ensures image.kind == "function" || image.kind == "service" ==>
              SettingResult(d, image, dials)
              == if !dials then Refused else if image in d then Stored else NilPointer
  {
  }

  /** On every run the kinds stay apart. */
  lemma {:induction false} KindsStayApart(events: seq<Event>)
    ensures KindsApart(After(events))
    decreases |events|
  {
    if events != [] {
      var before, e := events[..|events| - 1], events[|events| - 1];
      KindsStayApart(before);
      if e.PodEvent? && e.report.got.Some? {
        ReadyKeepsApart(After(before), e.image, e.podName, e.report.got.value.conditions, e.report.dials);
      }
    }
  }

  /** An event of one image leaves every other image as it was. */
  lemma OthersUntouched(d: Images, e: Event, other: Image)
    requires other != e.image
    ensures Same(Next(d, e), d, other)
  {
    if e.PodEvent? && e.report.got.Some? {
      ReadyKeepsOthers(d, e.image, e.podName, e.report.got.value.conditions, e.report.dials);
    }
  }

  /** What an image's clients are depends on the last pod event that says anything. */
  ghost predicate Silent(e: Event, image: Image) {
    e.image == image ==>
      || e.Registered?
      || (e.PodEvent? && (!e.report.applies || (Runs(e.report) && e.report.got.value.conditions == [])))
  }

  /** Once a pod was seen, its client stays as that event left it until the image is removed
      or a later event of its own tells otherwise. */
  lemma {:induction false} ClientPersists(d: Images, later: seq<Event>, image: Image)
    requires image in d && forall i :: 0 <= i < |later| ==> Silent(later[i], image)
    ensures image in Continue(d, later)
    ensures ClientOf(Continue(d, later), image) == ClientOf(d, image)
    decreases |later|
  {
    if later != [] {
      var before, e := later[..|later| - 1], later[|later| - 1];
      ClientPersists(d, before, image);
      var d1 := Continue(d, before);
      if e.PodEvent? && e.report.got.Some? {
        ReadyKeepsOthers(d1, e.image, e.podName, e.report.got.value.conditions, e.report.dials);
      }
      if e.image != image {
        OthersUntouched(d1, e, image);
      }
    }
  }

  function Continue(d: Images, events: seq<Event>): Images
    decreases |events|
  {
    if events == [] then d else Next(Continue(d, events[..|events| - 1]), events[|events| - 1])
  }
}
