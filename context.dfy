/** The `context` dict the heuristic stages share (work.py:442): find_title writes
    "title-size", find_dates writes "date-start" and "date-size", and is_namelike reads
    all three.  A value may be None, as tag_value returns it. */
module SharedContext {
  import opened Base

  class Context {
    var entries: map<string, Option<int>>

    /** `context = {}` */
    constructor()
      ensures entries == map[]
    {
      entries := map[];
    }

    /** `context[key] = value` */
    method Set(key: string, value: Option<int>)
      modifies this
      ensures entries == old(entries)[key := value]
    {
      entries := entries[key := value];
    }
  }

  /** `context[key]` used as the right-hand side of an int comparison: a missing key
      raises KeyError, a None value raises TypeError. */
  function Lookup(entries: map<string, Option<int>>, key: string): (r: Result<int>)
    ensures r.Ok? <==> key in entries && entries[key].Some?
    ensures r.Ok? ==> r.value == entries[key].value
    ensures r.Err? ==> r.fault == (if key in entries then ComparedWithNone(key) else MissingKey(key))
  {
    if key !in entries then Err(MissingKey(key))
    else match entries[key]
      case None => Err(ComparedWithNone(key))
      case Some(v) => Ok(v)
  }
}
