/** The pool SOCKS ports are taken from. */
module PortPool {
  import opened Bytes

  /** What one request may answer and leave behind; an unspecific request may get any free port. */
  ghost predicate Granted(pool: set<int>, used: set<int>, request: Option<int>, r: Option<int>, after: set<int>) {
    match request
    case Some(port) =>
      && (r == Some(port) || r.None?)
      && (r.Some? <==> port !in used)
      && after == (if r.Some? then used + {port} else used)
    case None =>
      && (r.Some? ==> r.value in pool && r.value !in used && after == used + {r.value})
      && (r.None? ==> pool <= used && after == used)
  }

  lemma NothingLeft(ports: set<int>, used: set<int>)
    requires ports - used == {}
    ensures ports <= used
  {
    forall x | x in ports ensures x in used {
      assert x !in ports - used;
    }
  }

  class Pool {
    const ports: set<int>
    var used: set<int>

    constructor (ports: set<int>)
      ensures this.ports == ports && used == {}
    {
      this.ports := ports;
      used := {};
    }

    method Get(request: Option<int>) returns (r: Option<int>)
      modifies this`used
      ensures Granted(ports, old(used), request, r, used)
    {
      if request.Some? {
        if request.value !in used {
          used := used + {request.value};
          return request;
        }
        return None;
      }
      var available := ports - used;
      if available != {} {
        ghost var some := Member(available);
        var port: int :| port in available;
        used := used + {port};
        return Some(port);
      }
      NothingLeft(ports, used);
      return None;
    }

    method Put(port: int)
      modifies this`used
      ensures used == old(used) - {port}
    {
      if port in used {
        used := used - {port};
      }
    }
  }
}
