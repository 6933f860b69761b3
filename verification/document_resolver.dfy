/** The pluggable capability that fetches controller documents, and the
    first-accepting selection over an ordered chain of them. */
module DocumentResolvers {
  import opened Wrappers
  import opened Uris
  import opened IdentifierDocuments

  /** A document resolver: `accepts` says whether it handles an identifier without
      fetching; `fetch` performs the fetch, None standing for a null document. */
  datatype DocumentResolver = DocumentResolver(
    accepts: Uri -> bool,
    fetch: Uri -> Option<IdentifierDocument>)

  /** `i` is the position of the first resolver in `chain` that accepts `u`. */
  ghost predicate IsFirstAccepting(chain: seq<DocumentResolver>, u: Uri, i: nat) {
    && i < |chain|
    && chain[i].accepts(u)
    && forall j :: 0 <= j < i ==> !chain[j].accepts(u)
  }

  /** The position of the first resolver that accepts `u`; None when none does. */
  function FirstAccepting(chain: seq<DocumentResolver>, u: Uri): (r: Option<nat>)
    ensures r.Some? ==> IsFirstAccepting(chain, u, r.value)
    ensures r.None? <==> forall j :: 0 <= j < |chain| ==> !chain[j].accepts(u)
    decreases |chain|
  {
    if |chain| == 0 then None
    else if chain[0].accepts(u) then Some(0)
    else match FirstAccepting(chain[1..], u)
      case None => None
      case Some(i) => Some(i + 1)
  }

  /** There is at most one first accepting resolver. */
  lemma FirstAcceptingUnique(chain: seq<DocumentResolver>, u: Uri, i: nat, k: nat)
    requires IsFirstAccepting(chain, u, i) && IsFirstAccepting(chain, u, k)
    ensures i == k
  {
  }

  /** Resolvers after the first accepting one are never consulted: appending
      any resolvers to a chain that already accepts `u` selects the same one. */
  lemma {:induction false} FirstAcceptingIgnoresLater(chain: seq<DocumentResolver>, later: seq<DocumentResolver>, u: Uri)
    requires FirstAccepting(chain, u).Some?
    ensures FirstAccepting(chain + later, u) == FirstAccepting(chain, u)
  {
    var i := FirstAccepting(chain, u).value;
    assert IsFirstAccepting(chain + later, u, i) by {
      assert (chain + later)[i] == chain[i];
      forall j | 0 <= j < i
        ensures !(chain + later)[j].accepts(u)
      {
        assert (chain + later)[j] == chain[j];
      }
    }
    FirstAcceptingUnique(chain + later, u, i, FirstAccepting(chain + later, u).value);
  }

  /** Resolvers that do not accept `u` may be put in front of a chain without
      changing which resolver is chosen, only its position. */
  lemma {:induction false} FirstAcceptingSkipsRefusers(refusers: seq<DocumentResolver>, chain: seq<DocumentResolver>, u: Uri)
    requires forall j :: 0 <= j < |refusers| ==> !refusers[j].accepts(u)
    ensures FirstAccepting(chain, u).None? ==> FirstAccepting(refusers + chain, u).None?
    ensures FirstAccepting(chain, u).Some? ==>
      FirstAccepting(refusers + chain, u) == Some(|refusers| + FirstAccepting(chain, u).value)
  {
    var all := refusers + chain;
    if FirstAccepting(chain, u).Some? {
      var i := FirstAccepting(chain, u).value;
      assert all[|refusers| + i] == chain[i];
      forall j | 0 <= j < |refusers| + i
        ensures !all[j].accepts(u)
      {
        if j < |refusers| {
          assert all[j] == refusers[j];
        } else {
          assert all[j] == chain[j - |refusers|];
        }
      }
      assert IsFirstAccepting(all, u, |refusers| + i);
      FirstAcceptingUnique(all, u, |refusers| + i, FirstAccepting(all, u).value);
    } else {
      forall j | 0 <= j < |all|
        ensures !all[j].accepts(u)
      {
        if j < |refusers| {
          assert all[j] == refusers[j];
        } else {
          assert all[j] == chain[j - |refusers|];
        }
      }
    }
  }
}
