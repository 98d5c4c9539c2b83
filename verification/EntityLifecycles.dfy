/** The four lifecycles alpha drives (internal/alphasfile/lifecycle.go). */
module EntityLifecycles {
  import opened Paths
  import opened Lifecycle

  /** Every state name; `Done` is the composed "outcome decided" barrier outside the graphs. */
  datatype State = Scheduled | Running | Ready | Failed | Stopped | Success | Failure | Installing | Done

  datatype Kind = ServiceKind | ProvisionKind | BuildKind | ToolchainKind

  function States(k: Kind): seq<State> {
    match k
    case ServiceKind => [Scheduled, Running, Ready, Failed, Stopped]
    case ProvisionKind => [Scheduled, Running, Success, Failure]
    case BuildKind => [Scheduled, Running, Success, Failure]
    case ToolchainKind => [Installing, Ready, Failed]
  }

  function Edges(k: Kind): seq<Edge<State>> {
    match k
    case ServiceKind =>
      [Edge(Scheduled, Running), Edge(Running, Ready), Edge(Running, Failed), Edge(Ready, Stopped)]
    case ProvisionKind => [Edge(Scheduled, Running), Edge(Running, Success), Edge(Running, Failure)]
    case BuildKind => [Edge(Scheduled, Running), Edge(Running, Success), Edge(Running, Failure)]
    case ToolchainKind => [Edge(Installing, Ready), Edge(Installing, Failed)]
  }

  /** The state that ends an entity well, and the one alpha pairs with every wait on it. */
  function Good(k: Kind): State {
    if k.ServiceKind? || k.ToolchainKind? then Ready else Success
  }

  function Bad(k: Kind): State {
    if k.ServiceKind? || k.ToolchainKind? then Failed else Failure
  }

  /** What Reach(s) fires, written out. */
  function Down(k: Kind, s: State): set<State> {
    if s !in States(k) then {}
    else match s
    case Scheduled => {Scheduled}
    case Installing => {Installing}
    case Running => {Scheduled, Running}
    case Ready => if k.ToolchainKind? then {Installing, Ready} else {Scheduled, Running, Ready}
    case Failed => if k.ToolchainKind? then {Installing, Failed} else {Scheduled, Running, Failed}
    case Stopped => {Scheduled, Running, Ready, Stopped}
    case Success => {Scheduled, Running, Success}
    case Failure => {Scheduled, Running, Failure}
  }

  /** The written-out sets are the transitive closure of the declared edges. In particular
      reaching a failure state also fires `Running`, and `Stopped` implies `Ready`. */
  lemma DownIsFires(k: Kind, s: State)
    ensures Down(k, s) == Fires(States(k), Edges(k), s)
  {
    if s in States(k) {
      DownIsDeclared(k, s);
      forall p | p in States(k)
        ensures p in Down(k, s) <==> p == s || Reaches(Declared(States(k), Edges(k)), p, s)
      {
        DownAt(k, s, p);
      }
    }
  }

  lemma DownIsDeclared(k: Kind, s: State)
    requires s in States(k)
    ensures s in Down(k, s) && forall p :: p in Down(k, s) ==> p in States(k)
  {
  }

  lemma DownAt(k: Kind, s: State, p: State)
    requires s in States(k) && p in States(k)
    ensures p in Down(k, s) <==> p == s || Reaches(Declared(States(k), Edges(k)), p, s)
  {
    DownIsDeclared(k, s);
    if p in Down(k, s) {
      if p != s {
        DownReaches(k, p, s);
      }
    } else if Reaches(Declared(States(k), Edges(k)), p, s) {
      EdgesStayOut(k, s);
      StaysInside(Declared(States(k), Edges(k)), (set x | x in States(k) && x !in Down(k, s)), p, s);
    }
  }

  lemma EdgesStayOut(k: Kind, s: State)
    requires s in States(k)
    ensures forall x, y :: x !in Down(k, s) && (x, y) in Declared(States(k), Edges(k)) ==>
                           y in States(k) && y !in Down(k, s)
  {
  }

  lemma DownReaches(k: Kind, p: State, s: State)
    requires s in States(k) && p in Down(k, s) && p != s
    ensures Reaches(Declared(States(k), Edges(k)), p, s)
  {
    var edges := Declared(States(k), Edges(k));
    forall i | 0 <= i < |Edges(k)|
      ensures Reaches(edges, Edges(k)[i].from, Edges(k)[i].to)
    {
      assert Edges(k)[i] in Edges(k);
      OneStep(edges, Edges(k)[i].from, Edges(k)[i].to);
    }
    if !k.ToolchainKind? {
      assert Reaches(edges, Scheduled, Running) by { assert Edges(k)[0] == Edge(Scheduled, Running); }
      if s != Running && s != Stopped {
        assert Edges(k)[1].from == Edges(k)[2].from == Running;
        Join(edges, Scheduled, Running, s);
      } else if s == Stopped {
        assert Edges(k)[1] == Edge(Running, Ready) && Edges(k)[3] == Edge(Ready, Stopped);
        Join(edges, Running, Ready, Stopped);
        Join(edges, Scheduled, Running, Stopped);
      }
    } else {
      assert Edges(k)[0].from == Edges(k)[1].from == Installing;
    }
  }
}
