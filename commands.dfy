/** The command that scores a receipt and files the score. */
module Commands {
  import opened Domain
  import Calculator
  import Memory

  /** AddReceiptPointsHandler.Handle with the calculator and the in-memory
      store as its collaborators: a receipt that cannot be scored reaches no
      store, a store failure hands back the Nil id, and a success files the
      receipt's score under a new id and returns that id. */
  method Handle(repo: Memory.Engine, ctx: Memory.Context, now: Memory.Time, cut: Memory.Interruption, r: Receipt)
    returns (id: Memory.Uuid, err: Option<Error>)
    requires repo.Valid()
    requires Memory.Admissible(Memory.WithDefaultTimeout(ctx, now, repo.opTimeOut), now, cut)
    modifies repo
    ensures repo.Valid() && repo.opTimeOut == old(repo.opTimeOut)
    ensures Calculator.Score(r).Ok? ==> repo.lastId == old(repo.lastId) + 1
    ensures Calculator.Score(r).Err? ==>
      id == Memory.Nil && err == Some(Calculator.Score(r).error) && unchanged(repo)
    ensures Calculator.Score(r).Ok? && !Memory.Completes(cut, Memory.PayloadDelivery) ==>
      && id == Memory.Nil
      && err == Memory.CtxErr(Memory.WithDefaultTimeout(ctx, now, old(repo.opTimeOut)), cut.time)
      && err.Some?
      && repo.storage == old(repo.storage)
    ensures Calculator.Score(r).Ok? && Memory.Completes(cut, Memory.PayloadDelivery) ==>
      && err.None? && id != Memory.Nil
      && id !in old(repo.storage)
      && repo.storage == old(repo.storage)[id := Points(Calculator.Score(r).value)]
  {
    var points := Calculator.Points(r);
    if points.Err? {
      return Memory.Nil, Some(points.error);
    }
    var saved, saveErr := repo.Save(ctx, now, cut, points.value);
    if saveErr.Some? {
      return Memory.Nil, saveErr;
    }
    return saved, None;
  }
}
