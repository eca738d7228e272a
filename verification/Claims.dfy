/** The first two steps on a custom resource, which both controllers take alike. */
module Claims {
  import opened Objects
  import opened Api
  import opened ProxyPasses

  method InitsStatus(api: ApiServer, r: Ref, v: Versioned) returns (result: Outcome)
    requires v.obj.IsResource() && v.obj.Kind() == r.kind
    modifies api
    ensures (api.View(), result) == InitStatus(api.oracle, old(api.View()), r, v)
  {
    var cr := v.obj.cr;
    cr := Report(cr, AVAILABLE, Unknown, "Reconciling", Starting);
    var told := api.Updates(r, Status, v.(obj := v.obj.With(cr)));
    if told.Err? { return Failed(told.error); }
    return Requeue;
  }

  method AddsFinalizer(api: ApiServer, r: Ref, v: Versioned) returns (result: Outcome)
    requires v.obj.IsResource() && v.obj.Kind() == r.kind
    modifies api
    ensures (api.View(), result) == ClaimFinalizer(api.oracle, old(api.View()), r, v)
  {
    var cr := v.obj.cr;
    cr := cr.(finalizers := AddFinalizer(cr.finalizers));
    var told := api.Updates(r, Main, v.(obj := v.obj.With(cr)));
    if told.Err? { return Failed(told.error); }
    return Requeue;
  }
}
