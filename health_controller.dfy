/**
 * Controllers/HealthController.cs: GET api/health takes the ApiClient lock, asks GetAppliances,
 * and answers 200 when it lists any appliance. Whatever GetAppliances throws is swallowed and
 * reads as no appliances. `appliances` is what GetAppliances returns while the lock is held.
 */
module HealthControl {
  import opened Wrappers
  import opened Dictionaries
  import opened ApplianceGraph
  import opened Replies
  import opened LockQueue

  /** The verdict on GetAppliances' answer: healthy exactly when it returned a non-empty dictionary. */
  function HealthReply(appliances: Result<Dict<string, Appliance>>): (r: Reply<()>)
    ensures r == Done <==> appliances.Ok? && |appliances.value| != 0
    ensures r != Done ==> r == Unavailable("API is unhealthy") && StatusCode(r) == 503
  {
    var applianceCount := if appliances.Ok? then |appliances.value| else 0;
    if applianceCount != 0 then Done else Unavailable("API is unhealthy")
  }

  /**
   * GetHealth on a queue nobody else holds: the lock is granted at once, held while the
   * appliances are asked for, and released on the way out, leaving the queue empty again.
   */
  method GetHealth(queue: ApiClientLockQueue, appliances: Result<Dict<string, Appliance>>) returns (r: Reply<()>)
    requires Consistent(queue.State()) && queue.waiting == []
    modifies queue
    ensures r == HealthReply(appliances)
    ensures queue.waiting == [] && Consistent(queue.State())
    ensures queue.completed == old(queue.completed) + [old(queue.nextTicket)]
  {
    var lock, granted := queue.GetLock();
    EnqueueSpec(old(queue.State()));
    // The check runs while this request's ticket is the only one queued and has been granted.
    assert granted && queue.waiting == [lock.ticket] && lock.ticket in queue.completed;
    var applianceCount := 0;
    if appliances.Ok? {
      applianceCount := |appliances.value|;
    }
    r := if applianceCount != 0 then Done else Unavailable("API is unhealthy");
    DequeueSpec(queue.State());
    var released := lock.DisposeAsync();
  }
}
