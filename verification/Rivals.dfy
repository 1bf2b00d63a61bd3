/** What other clients write while a call is between its reads and its write. */
module Rivals {
  import opened WorldModel
  import opened WorldPlans

  function ApplyAll(r: Repo, rivals: seq<Plan>): Repo {
    if |rivals| == 0 then r else Apply(ApplyAll(r, rivals[..|rivals| - 1]), rivals[|rivals| - 1])
  }

  /** Other clients write while this call is under way. */
  method Meanwhile(repository: WorldRepository, rivals: seq<Plan>)
    modifies repository
    ensures repository.View() == ApplyAll(old(repository.View()), rivals)
  {
    ghost var before := repository.View();
    for n := 0 to |rivals|
      invariant repository.View() == ApplyAll(before, rivals[..n])
    {
      assert rivals[..n + 1][..n] == rivals[..n];
      match rivals[n]
      case BeginOp(after, o, expected) => var began := repository.BeginOperation(after, o, expected);
      case SaveOp(o, expected, write) => var saved := repository.SaveOp(o, expected, write);
      case Touch(after, expected) => var touched := repository.Save(after, expected);
      case Append(after, v, expected) => var appended := repository.AppendConfiguration(after, v, expected);
      case Remove(k) => var removed := repository.DeleteWorld(k);
      case _ =>
    }
    assert rivals[..|rivals|] == rivals;
  }
}
