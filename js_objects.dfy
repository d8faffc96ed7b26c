/** The two mutable local containers the endpoint wrappers build requests
    in: a plain object whose properties are assigned under guards, and an
    array of `k=v` segments that is pushed to and finally joined with `&`. */
module JsObjects {
  import opened Values
  import opened Objects

  /** A plain JavaScript object (`let params = {}`) that a builder fills in. */
  class ParamObject {
    var props: Props

    /** `{}` */
    constructor ()
      ensures props == Empty
    {
      props := Empty;
    }

    /** An object literal such as `{ q: text }`. */
    constructor Literal(init: Props)
      ensures props == init
    {
      props := init;
    }

    /** `obj.k = v` or `obj['k'] = v`. */
    method Set(k: string, v: Value)
      modifies this
      ensures props == Put(old(props), k, v)
    {
      props := Put(props, k, v);
    }

    /** `Object.assign(obj, src)`: copies the properties of src one by one, in src's order. */
    method Assign(src: Props)
      modifies this
      ensures props == AssignAll(old(props), src)
    {
      var ks := src.keys;
      for i := 0 to |ks|
        invariant AssignKeys(props, src, ks[i..]) == AssignAll(old(props), src)
      {
        assert ks[i..][0] == ks[i] && ks[i..][1..] == ks[i + 1..];
        Set(ks[i], Read(src, ks[i]));
      }
      assert ks[|ks|..] == [];
    }
  }

  /** A JavaScript array of query-string segments (`let params = []`). */
  class SegmentList {
    var items: seq<string>

    constructor ()
      ensures items == []
    {
      items := [];
    }

    /** `params.push(s)` */
    method Push(s: string)
      modifies this
      ensures items == old(items) + [s]
    {
      items := items + [s];
    }

    /** `params.join('&')` */
    function Joined(): string
      reads this
    {
      Join(items, '&')
    }
  }
}
