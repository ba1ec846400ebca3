/** The dictionaries the processes exchange and the queues that carry them. */
module Messages {
  import opened Values

  /** A message: a Python dict with string keys. */
  type Msg = map<string, Value>

  /** msg[key]: raises KeyError when the key is missing. */
  function Field(m: Msg, key: string): (r: Result<Value>)
    ensures r.Ok? <==> key in m
    ensures r.Ok? ==> r.value == m[key]
    ensures r.Raised? ==> r.fault == KeyError(key)
  {
    if key in m then Ok(m[key]) else Raised(KeyError(key))
  }

  /** Python truthiness of a message: an empty dict is false. */
  predicate Truthy(m: Msg) { m != map[] }

  /** A multiprocessing queue: put appends, a non-blocking get takes the oldest
      message or reports that the queue is empty. */
  class MessageQueue {
    var items: seq<Msg>

    constructor ()
      ensures items == []
    {
      items := [];
    }

    method Put(m: Msg)
      modifies this
      ensures items == old(items) + [m]
    {
      items := items + [m];
    }

    /** get(block=False); None stands for the Empty exception. */
    method Get() returns (m: Option<Msg>)
      modifies this
      ensures old(items) == [] ==> m == None && items == []
      ensures old(items) != [] ==> m == Some(old(items)[0]) && items == old(items)[1..]
    {
      if items == [] {
        m := None;
      } else {
        m := Some(items[0]);
        items := items[1..];
      }
    }
  }
}
