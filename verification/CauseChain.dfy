// Deciding whether a database error is the duplicate-intent violation, by walking the chain of
// causes; chains may be cyclic.

module CauseChain {
  import opened Prelude

  const DUPLICATE_SQLSTATE := "23505"
  const IDEMPOTENCY_CONSTRAINT := "uq_order_intent_idempotency"

  /**
   * An exception with the attributes the walk reads. An attribute that is missing, is not a string, or
   * raises when read counts as absent.
   */
  class Link {
    var sqlstate: Option<string>
    var pgcode: Option<string>
    var constraintName: Option<string>
    var diagConstraintName: Option<string>
    var orig: Link?
    var cause: Link?

    predicate SaysDuplicate()
      reads this
    {
      sqlstate == Some("23505") || pgcode == Some("23505")
    }

    predicate NamesConstraint()
      reads this
    {
      constraintName == Some("uq_order_intent_idempotency") || diagConstraintName == Some("uq_order_intent_idempotency")
    }
  }

  /** A finite set of exceptions that refer only to each other. */
  ghost predicate Closed(links: set<Link>)
    reads links
  {
    forall link :: link in links ==> (link.orig != null ==> link.orig in links) && (link.cause != null ==> link.cause in links)
  }

  /** The k-th cause counted from `start`, or null past the end of the chain. */
  ghost function Cause(start: Link?, k: nat, links: set<Link>): (link: Link?)
    requires Closed(links) && (start != null ==> start in links)
    reads links
    ensures link != null ==> link in links
  {
    if k == 0 then start
    else
      var before := Cause(start, k - 1, links);
      if before == null then null else before.cause
  }

  ghost predicate OnChain(link: Link, start: Link?, links: set<Link>)
    requires Closed(links) && (start != null ==> start in links)
    reads links
  {
    exists k: nat :: Cause(start, k, links) == link
  }

  /** Every cause from `i` on is among the first `i`, once the chain ends at `i` or returns there. */
  lemma {:induction false} ChainCloses(start: Link?, i: nat, visited: set<Link>, links: set<Link>, k: nat)
    requires Closed(links) && (start != null ==> start in links)
    requires forall link :: link in visited ==> link in links && (link.cause == null || link.cause in visited || link.cause == Cause(start, i, links))
    requires Cause(start, i, links) == null || Cause(start, i, links) in visited
    requires start == null || start in visited
    ensures Cause(start, k, links) == null || Cause(start, k, links) in visited
  {
    if 0 < k { ChainCloses(start, i, visited, links, k - 1); }
  }

  /**
   * The walk starts at the driver's own exception when there is one. True exactly when some exception of
   * the chain carries the duplicate SQLSTATE and some exception, possibly another, names the idempotency
   * constraint. The walk ends on every finite chain, cyclic ones included: each turn visits an exception
   * not visited before.
   */
  method IsDuplicateIntent(error: Link, ghost links: set<Link>) returns (duplicate: bool)
    requires Closed(links) && error in links
    ensures var start := if error.orig != null then error.orig else error;
            duplicate <==>
              && (exists link :: link in links && OnChain(link, start, links) && link.SaysDuplicate())
              && (exists link :: link in links && OnChain(link, start, links) && link.NamesConstraint())
  {
    var current: Link? := error.orig;
    if current == null {
      current := error;
    }
    ghost var start, i := current, 0;
    var visited: set<Link> := {};
    var hasDuplicateSqlstate, hasIdempotencyConstraint := false, false;
    while current != null && current !in visited
      invariant i == |visited| && visited <= links && current == Cause(start, i, links)
      invariant if i == 0 then visited == {} && current == start else start in visited
      invariant forall link :: link in visited ==> OnChain(link, start, links)
      invariant forall link :: link in visited ==> link.cause == null || link.cause in visited || link.cause == current
      invariant hasDuplicateSqlstate <==> exists link :: link in visited && link.SaysDuplicate()
      invariant hasIdempotencyConstraint <==> exists link :: link in visited && link.NamesConstraint()
      decreases links - visited
    {
      visited := visited + {current};
      assert OnChain(current, start, links);
      if current.sqlstate == Some(DUPLICATE_SQLSTATE) {
        hasDuplicateSqlstate := true;
      }
      if current.pgcode == Some(DUPLICATE_SQLSTATE) {
        hasDuplicateSqlstate := true;
      }
      if current.constraintName == Some(IDEMPOTENCY_CONSTRAINT) {
        hasIdempotencyConstraint := true;
      }
      if current.diagConstraintName == Some(IDEMPOTENCY_CONSTRAINT) {
        hasIdempotencyConstraint := true;
      }
      current := current.cause;
      i := i + 1;
    }
    forall link | link in links && OnChain(link, start, links) ensures link in visited {
      var k: nat :| Cause(start, k, links) == link;
      ChainCloses(start, i, visited, links, k);
    }
    duplicate := hasDuplicateSqlstate && hasIdempotencyConstraint;
  }
}
