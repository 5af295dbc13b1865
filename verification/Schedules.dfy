/** Schedules cut before their last step. */
module Schedules {

  lemma DropLast<T>(before: seq<T>, after: seq<T>)
    requires after != []
    ensures var all := before + after;
            all[..|all| - 1] == before + after[..|after| - 1] && all[|all| - 1] == after[|after| - 1]
  {
  }

  lemma DropAppended<T>(before: seq<T>, x: T)
    ensures var all := before + [x]; all[..|all| - 1] == before && all[|all| - 1] == x
  {
  }
}
