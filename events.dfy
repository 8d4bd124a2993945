/**
 * The event router (internal/sms-gateway/modules/events/service.go): a
 * bounded FIFO of 128 events filled by a non-blocking `Notify` and drained
 * one event at a time by `Run`, which selects the user's devices and routes
 * each one to push (when it has a push token) or to server-sent events.
 * The device store and both delivery services are parameters.
 */
module Events {
  import opened Wrappers

  /** The capacity of the event channel. */
  const QueueCapacity: nat := 128

  const QueueFull: string := "event queue is full"

  /** `Event`: a push event type and its string data. */
  datatype Event = Event(eventType: string, data: map<string, string>)

  /** `eventWrapper`: the owner, an optional single target device, and the event. */
  datatype QueuedEvent = QueuedEvent(userId: string, deviceId: Option<string>, event: Event)

  /** The part of a device record the router reads. */
  datatype Device = Device(id: string, pushToken: Option<string>)

  /** A device-selection filter (`devices.WithID`). */
  datatype SelectFilter = WithId(id: string)

  /** Where one device's copy of the event goes. */
  datatype Channel = ViaPush(token: string) | ViaSse(deviceId: string)

  /** One delivery attempt and whether the service accepted it. */
  datatype Delivery = Delivery(deviceId: string, channel: Channel, ok: bool)

  /** The filters `processEvent` selects with: a target device narrows the selection to that device. */
  function Filters(w: QueuedEvent): (r: seq<SelectFilter>)
    ensures w.deviceId.None? <==> r == []
    ensures w.deviceId.Some? ==> r == [WithId(w.deviceId.value)]
  {
    match w.deviceId
    case None => []
    case Some(id) => [WithId(id)]
  }

  /** Push exactly when the device has a non-empty token, otherwise SSE to the device id. */
  function Route(d: Device): (r: Channel)
    ensures r.ViaPush? <==> d.pushToken.Some? && d.pushToken.value != ""
    ensures r.ViaPush? ==> r.token == d.pushToken.value
    ensures r.ViaSse? ==> r.deviceId == d.id
  {
    if d.pushToken.Some? && d.pushToken.value != "" then ViaPush(d.pushToken.value) else ViaSse(d.id)
  }

  /** The attempt made for one device, given what each service answers. */
  function Attempt(d: Device, e: Event, push: (string, Event) -> bool, sse: (string, Event) -> bool): Delivery {
    var ch := Route(d);
    Delivery(d.id, ch, if ch.ViaPush? then push(ch.token, e) else sse(d.id, e))
  }

  /** The attempts for a device list, in list order. */
  function Attempts(devices: seq<Device>, e: Event, push: (string, Event) -> bool, sse: (string, Event) -> bool): seq<Delivery>
    decreases |devices|
  {
    if devices == [] then []
    else Attempts(devices[..|devices| - 1], e, push, sse) + [Attempt(devices[|devices| - 1], e, push, sse)]
  }

  /**
   * Every selected device is attempted exactly once, on the channel its
   * token selects, whatever became of the attempts before it.
   */
  lemma {:induction false} EveryDeviceAttempted(devices: seq<Device>, e: Event, push: (string, Event) -> bool, sse: (string, Event) -> bool)
    ensures |Attempts(devices, e, push, sse)| == |devices|
    ensures forall i :: 0 <= i < |devices| ==>
              Attempts(devices, e, push, sse)[i].deviceId == devices[i].id &&
              Attempts(devices, e, push, sse)[i].channel == Route(devices[i])
    decreases |devices|
  {
    if devices != [] {
      EveryDeviceAttempted(devices[..|devices| - 1], e, push, sse);
    }
  }

  /**
   * Failure isolation: one device's outcome depends only on its own
   * service's answer, so a service that rejects every other device changes
   * nothing for it.
   */
  lemma {:induction false} OutcomeIsPerDevice(devices: seq<Device>, e: Event,
                                             push: (string, Event) -> bool, sse: (string, Event) -> bool,
                                             push': (string, Event) -> bool, sse': (string, Event) -> bool,
                                             i: nat)
    requires i < |devices|
    requires Route(devices[i]).ViaPush? ==> push(Route(devices[i]).token, e) == push'(Route(devices[i]).token, e)
    requires Route(devices[i]).ViaSse? ==> sse(devices[i].id, e) == sse'(devices[i].id, e)
    ensures |Attempts(devices, e, push, sse)| == |Attempts(devices, e, push', sse')| == |devices|
    ensures Attempts(devices, e, push, sse)[i] == Attempts(devices, e, push', sse')[i]
    decreases |devices|
  {
    EveryDeviceAttempted(devices, e, push, sse);
    EveryDeviceAttempted(devices, e, push', sse');
    if i < |devices| - 1 {
      OutcomeIsPerDevice(devices[..|devices| - 1], e, push, sse, push', sse', i);
    }
  }

  /**
   * `processEvent`: select the devices; on a selection error or an empty
   * selection nothing is attempted; otherwise each device is attempted in
   * turn and a failure only marks that device's attempt.
   */
  method ProcessEvent(w: QueuedEvent,
                      select: (string, seq<SelectFilter>) -> Result<seq<Device>, string>,
                      push: (string, Event) -> bool, sse: (string, Event) -> bool)
    returns (log: seq<Delivery>)
    ensures select(w.userId, Filters(w)).Err? ==> log == []
    ensures select(w.userId, Filters(w)).Ok? ==> log == Attempts(select(w.userId, Filters(w)).value, w.event, push, sse)
  {
    var selected := select(w.userId, Filters(w));
    if selected.Err? {
      return [];
    }
    var devices := selected.value;
    if |devices| == 0 {
      return [];
    }
    log := [];
    var i := 0;
    while i < |devices|
      invariant 0 <= i <= |devices|
      invariant log == Attempts(devices[..i], w.event, push, sse)
    {
      var d := devices[i];
      var ok;
      if d.pushToken.Some? && d.pushToken.value != "" {
        ok := push(d.pushToken.value, w.event);
      } else {
        ok := sse(d.id, w.event);
      }
      log := log + [Delivery(d.id, Route(d), ok)];
      assert devices[..i + 1][..i] == devices[..i];
      i := i + 1;
    }
    assert devices[..i] == devices;
  }

  /** `Service`: the event channel, front first. */
  class EventService {
    var queue: seq<QueuedEvent>

    ghost predicate Valid()
      reads this
    {
      |queue| <= QueueCapacity
    }

    constructor ()
      ensures Valid() && queue == []
    {
      queue := [];
    }

    /** `Notify`: enqueue at the back when there is room, otherwise fail at once and change nothing. */
    method Notify(userId: string, deviceId: Option<string>, event: Event) returns (err: Outcome<string>)
      requires Valid()
      modifies this
      ensures Valid()
      ensures old(|queue|) < QueueCapacity ==> err == Pass && queue == old(queue) + [QueuedEvent(userId, deviceId, event)]
      ensures old(|queue|) >= QueueCapacity ==> err == Fail(QueueFull) && queue == old(queue)
    {
      if |queue| < QueueCapacity {
        queue := queue + [QueuedEvent(userId, deviceId, event)];
        err := Pass;
      } else {
        err := Fail(QueueFull);
      }
    }

    /** The receive in `Run`: the oldest queued event, if any. */
    method Next() returns (w: Option<QueuedEvent>)
      requires Valid()
      modifies this
      ensures Valid()
      ensures old(queue) == [] ==> w == None && queue == old(queue)
      ensures old(queue) != [] ==> w == Some(old(queue)[0]) && queue == old(queue)[1..]
    {
      if queue == [] {
        w := None;
      } else {
        w := Some(queue[0]);
        queue := queue[1..];
      }
    }

    /** One iteration of `Run`: take the oldest event and process it. */
    method RunOnce(select: (string, seq<SelectFilter>) -> Result<seq<Device>, string>,
                   push: (string, Event) -> bool, sse: (string, Event) -> bool)
      returns (w: Option<QueuedEvent>, log: seq<Delivery>)
      requires Valid()
      modifies this
      ensures Valid()
      ensures old(queue) == [] ==> w == None && log == [] && queue == old(queue)
      ensures old(queue) != [] ==> w == Some(old(queue)[0]) && queue == old(queue)[1..]
      ensures w.Some? && select(w.value.userId, Filters(w.value)).Ok? ==>
                log == Attempts(select(w.value.userId, Filters(w.value)).value, w.value.event, push, sse)
      ensures w.Some? && select(w.value.userId, Filters(w.value)).Err? ==> log == []
    {
      w := Next();
      if w.None? {
        log := [];
      } else {
        log := ProcessEvent(w.value, select, push, sse);
      }
    }
  }

  /**
   * 129 notifications with nobody consuming: the first 128 are accepted in
   * order and the 129th is refused with the queue left as it was.
   */
  method OverflowRefusesOnlyTheExtraEvent(userId: string, e: Event)
    returns (accepted: nat, lastErr: Outcome<string>, queued: nat)
    ensures accepted == QueueCapacity && lastErr == Fail(QueueFull) && queued == QueueCapacity
  {
    var svc := new EventService();
    accepted := 0;
    while accepted < QueueCapacity
      invariant accepted <= QueueCapacity
      invariant svc.Valid() && |svc.queue| == accepted
      modifies svc
    {
      var err := svc.Notify(userId, None, e);
      assert err == Pass;
      accepted := accepted + 1;
    }
    lastErr := svc.Notify(userId, None, e);
    queued := |svc.queue|;
  }

  /** Events leave the queue in the order they were notified. */
  method FirstInFirstOut(first: QueuedEvent, second: QueuedEvent)
    returns (a: Option<QueuedEvent>, b: Option<QueuedEvent>, c: Option<QueuedEvent>)
    ensures a == Some(first) && b == Some(second) && c == None
  {
    var svc := new EventService();
    var _ := svc.Notify(first.userId, first.deviceId, first.event);
    var _ := svc.Notify(second.userId, second.deviceId, second.event);
    a := svc.Next();
    b := svc.Next();
    c := svc.Next();
  }
}
