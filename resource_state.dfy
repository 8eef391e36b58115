/** The plugin SDK's per-resource store (`schema.ResourceData`) as the
    handlers use it. Each resource describes its attributes as one record
    type `S`, so `d.Get(k)` is a field of `state` (the zero value of the
    type when unset), `d.Set(k, v)` replaces that field, and
    `d.HasChange(k)` / `d.GetChange(k)` compare it with the same field of
    `prior`, the state the plan started from. */
module ResourceState {

  class ResourceData<S> {
    var id: string
    var state: S
    const prior: S

    constructor (id: string, state: S, prior: S)
      ensures this.id == id && this.state == state && this.prior == prior
    {
      this.id := id;
      this.state := state;
      this.prior := prior;
    }

    /** d.SetId(v); the empty id tells Terraform the resource is gone. */
    method SetId(v: string)
      modifies this
      ensures id == v && state == old(state)
    {
      id := v;
    }
  }
}
