/**
 Session stickiness in selectKeyFromProviderForModelWithPool: concurrent requests of one session agree
 on a key through the key-value store. One step per store operation; nothing expires and no store
 operation fails. All requests have the same supported keys, of which only the IDs matter here.
 */
module SessionStickiness {
  import opened Options

  type Req = nat

  datatype Pc =
    | Reading                      // about to read the stored ID
    | Refreshing(id: string)       // found a supported ID, about to renew it
    | Discarding                   // found a stale ID, about to delete it
    | Choosing
    | Storing(id: string)          // about to set the chosen ID unless one is stored
    | Rereading(id: string)        // lost the race, about to read the winner's ID
    | DiscardingLate(id: string)   // read a stale ID on the second read
    | Returned(id: string)
    | Refused                      // the selector failed

  datatype State = State(stored: Option<string>, pcs: map<Req, Pc>)

  datatype Step = Arrive | Read | Refresh | Discard | Choose(id: string) | ChooseFails | Store

  datatype Label = Label(r: Req, step: Step)

  /** getCachedKeyFromStore: an ID is found if it is supported, and stale if it is neither supported nor empty. */
  predicate Found(ids: set<string>, stored: Option<string>) { stored.Some? && stored.value != "" && stored.value in ids }

  predicate Stale(ids: set<string>, stored: Option<string>) { stored.Some? && stored.value != "" && stored.value !in ids }

  predicate Enabled(ids: set<string>, s: State, l: Label) {
    if l.step.Arrive? then l.r !in s.pcs
    else l.r in s.pcs && match l.step
      case Read => s.pcs[l.r].Reading? || s.pcs[l.r].Rereading?
      case Refresh => s.pcs[l.r].Refreshing?
      case Discard => s.pcs[l.r].Discarding? || s.pcs[l.r].DiscardingLate?
      case Choose(id) => s.pcs[l.r].Choosing? && id in ids
      case ChooseFails => s.pcs[l.r].Choosing?
      case Store => s.pcs[l.r].Storing?
      case Arrive => false
  }

  function At(s: State, r: Req, pc: Pc): State { s.(pcs := s.pcs[r := pc]) }

  function Next(ids: set<string>, s: State, l: Label): State
    requires Enabled(ids, s, l)
  {
    var r := l.r;
    match l.step
    case Arrive => At(s, r, Reading)
    case Read =>
      if s.pcs[r].Reading? then
        At(s, r, if Found(ids, s.stored) then Refreshing(s.stored.value) else if Stale(ids, s.stored) then Discarding else Choosing)
      else
        At(s, r, if Found(ids, s.stored) then Returned(s.stored.value)
                 else if Stale(ids, s.stored) then DiscardingLate(s.pcs[r].id) else Returned(s.pcs[r].id))
    case Refresh => At(s, r, Returned(s.pcs[r].id)).(stored := Some(s.pcs[r].id))
    case Discard => At(s, r, if s.pcs[r].Discarding? then Choosing else Returned(s.pcs[r].id)).(stored := None)
    case Choose(id) => At(s, r, Storing(id))
    case ChooseFails => At(s, r, Refused)
    case Store =>
      if s.stored == None then At(s, r, Returned(s.pcs[r].id)).(stored := Some(s.pcs[r].id))
      else At(s, r, Rereading(s.pcs[r].id))
  }

  predicate CanRun(ids: set<string>, s: State, ls: seq<Label>)
    decreases |ls|, 0
  {
    ls == [] || (CanRun(ids, s, ls[..|ls| - 1]) && Enabled(ids, AfterRun(ids, s, ls[..|ls| - 1]), ls[|ls| - 1]))
  }

  function AfterRun(ids: set<string>, s: State, ls: seq<Label>): State
    requires CanRun(ids, s, ls)
    decreases |ls|, 1
  {
    if ls == [] then s else Next(ids, AfterRun(ids, s, ls[..|ls| - 1]), ls[|ls| - 1])
  }

  function Start(stored: Option<string>): State { State(stored, map[]) }

  // ----- one key per session -----

  /** Every request is at a point consistent with `stored` being the session's one ID. */
  ghost predicate Sticky(ids: set<string>, s: State) {
    && (s.stored.Some? ==> s.stored.value in ids && s.stored.value != "")
    && (s.stored == None ==> "" !in ids)
    && forall r :: r in s.pcs ==>
         match s.pcs[r]
         case Refreshing(id) => s.stored == Some(id)
         case Returned(id) => s.stored == Some(id)
         case Discarding => false
         case DiscardingLate(_) => false
         case Storing(id) => id in ids
         case Rereading(_) => s.stored.Some?
         case _ => true
  }

  lemma StickyStep(ids: set<string>, s: State, l: Label)
    requires Sticky(ids, s) && Enabled(ids, s, l)
    ensures Sticky(ids, Next(ids, s, l))
    ensures s.stored.Some? ==> Next(ids, s, l).stored == s.stored
  {
  }

  lemma {:induction false} StickyRun(ids: set<string>, s: State, ls: seq<Label>)
    requires Sticky(ids, s) && CanRun(ids, s, ls)
    ensures Sticky(ids, AfterRun(ids, s, ls))
    ensures s.stored.Some? ==> AfterRun(ids, s, ls).stored == s.stored
    decreases |ls|
  {
    hide Sticky, Enabled, Next;
    if ls != [] {
      StickyRun(ids, s, ls[..|ls| - 1]);
      StickyStep(ids, AfterRun(ids, s, ls[..|ls| - 1]), ls[|ls| - 1]);
    }
  }

  /** The store starts with a supported ID, or empty with no key whose ID is empty. */
  predicate Sound(ids: set<string>, stored: Option<string>) {
    if stored.Some? then stored.value in ids && stored.value != "" else "" !in ids
  }

  ghost predicate Agree(s: State) {
    forall r, r', id, id' :: r in s.pcs && r' in s.pcs && s.pcs[r] == Returned(id) && s.pcs[r'] == Returned(id') ==> id == id'
  }

  ghost predicate AlwaysAgree(ids: set<string>, stored: Option<string>) {
    forall ls :: CanRun(ids, Start(stored), ls) ==> Agree(AfterRun(ids, Start(stored), ls))
  }

  /** Once stored, the ID never changes, and all requests return it, whatever the interleaving. */
  lemma OneKeyPerSession(ids: set<string>, stored: Option<string>, first: seq<Label>, more: seq<Label>, id: string)
    requires Sound(ids, stored) && CanRun(ids, Start(stored), first)
    requires AfterRun(ids, Start(stored), first).stored == Some(id)
    requires CanRun(ids, AfterRun(ids, Start(stored), first), more)
    ensures var s := AfterRun(ids, AfterRun(ids, Start(stored), first), more);
            && s.stored == Some(id)
            && forall r, got :: r in s.pcs && s.pcs[r] == Returned(got) ==> got == id
  {
    StickyRun(ids, Start(stored), first);
    StickyRun(ids, AfterRun(ids, Start(stored), first), more);
  }

  lemma SoundAgrees(ids: set<string>, stored: Option<string>)
    requires Sound(ids, stored)
    ensures AlwaysAgree(ids, stored)
  {
    forall ls | CanRun(ids, Start(stored), ls) ensures Agree(AfterRun(ids, Start(stored), ls)) {
      StickyRun(ids, Start(stored), ls);
    }
  }

  // ----- and only then -----

  ghost predicate Reaches(ids: set<string>, stored: Option<string>, ls: seq<Label>, s: State) {
    CanRun(ids, Start(stored), ls) && AfterRun(ids, Start(stored), ls) == s
  }

  lemma Extend(ids: set<string>, stored: Option<string>, ls: seq<Label>, s: State, l: Label)
    requires Reaches(ids, stored, ls, s) && Enabled(ids, s, l)
    ensures Reaches(ids, stored, ls + [l], Next(ids, s, l))
  {
    hide Enabled, Next;
    assert (ls + [l])[..|ls|] == ls;
  }

  /** Two requests at `a` and `b`. */
  function Two(stored: Option<string>, a: Pc, b: Pc): State { State(stored, map[0 := a, 1 := b]) }

  lemma Goes(ids: set<string>, stored: Option<string>, ls: seq<Label>, s: State, r: Req, step: Step, t: State)
    requires Reaches(ids, stored, ls, s) && Enabled(ids, s, Label(r, step)) && Next(ids, s, Label(r, step)) == t
    ensures Reaches(ids, stored, ls + [Label(r, step)], t)
  {
    hide Enabled, Next;
    Extend(ids, stored, ls, s, Label(r, step));
  }

  lemma BothArrive(ids: set<string>, stored: Option<string>) returns (ls: seq<Label>)
    ensures Reaches(ids, stored, ls, Two(stored, Reading, Reading))
  {
    ls := [];
    assert Reaches(ids, stored, [], Start(stored));
    assert map[][0 := Reading] == map[0 := Reading];
    Goes(ids, stored, [], Start(stored), 0, Arrive, State(stored, map[0 := Reading]));
    assert map[0 := Reading][1 := Reading] == map[0 := Reading, 1 := Reading];
    Goes(ids, stored, [] + [Label(0, Arrive)], State(stored, map[0 := Reading]), 1, Arrive, Two(stored, Reading, Reading));
    ls := [] + [Label(0, Arrive)] + [Label(1, Arrive)];
  }

  lemma First(ids: set<string>, stored: Option<string>, ls: seq<Label>, st: Option<string>, a: Pc, b: Pc, step: Step, st': Option<string>, a': Pc)
    requires Reaches(ids, stored, ls, Two(st, a, b)) && Enabled(ids, Two(st, a, b), Label(0, step))
    requires Next(ids, Two(st, a, b), Label(0, step)) == At(Two(st, a, b), 0, a').(stored := st')
    ensures Reaches(ids, stored, ls + [Label(0, step)], Two(st', a', b))
  {
    hide Enabled, Next, Reaches;
    assert map[0 := a, 1 := b][0 := a'] == map[0 := a', 1 := b];
    Goes(ids, stored, ls, Two(st, a, b), 0, step, Two(st', a', b));
  }

  lemma Second(ids: set<string>, stored: Option<string>, ls: seq<Label>, st: Option<string>, a: Pc, b: Pc, step: Step, st': Option<string>, b': Pc)
    requires Reaches(ids, stored, ls, Two(st, a, b)) && Enabled(ids, Two(st, a, b), Label(1, step))
    requires Next(ids, Two(st, a, b), Label(1, step)) == At(Two(st, a, b), 1, b').(stored := st')
    ensures Reaches(ids, stored, ls + [Label(1, step)], Two(st', a, b'))
  {
    hide Enabled, Next, Reaches;
    assert map[0 := a, 1 := b][1 := b'] == map[0 := a, 1 := b'];
    Goes(ids, stored, ls, Two(st, a, b), 1, step, Two(st', a, b'));
  }

  lemma TwoDisagree(st: Option<string>, x: string, y: string)
    requires x != y
    ensures !Agree(Two(st, Returned(x), Returned(y)))
  {
    var s := Two(st, Returned(x), Returned(y));
    assert 0 in s.pcs && 1 in s.pcs && s.pcs[0] == Returned(x) && s.pcs[1] == Returned(y);
  }

  /** Two requests read the same stale ID; the slower one then deletes the ID the faster one stored. */
  lemma StaleDisagrees(ids: set<string>, stored: Option<string>, x: string, y: string) returns (ls: seq<Label>, s: State)
    requires Stale(ids, stored) && x in ids && y in ids && x != y
    ensures Reaches(ids, stored, ls, s) && !Agree(s)
  {
    hide Reaches, CanRun, AfterRun;
    ls := BothArrive(ids, stored);
    First(ids, stored, ls, stored, Reading, Reading, Read, stored, Discarding);
    ls := ls + [Label(0, Read)];
    Second(ids, stored, ls, stored, Discarding, Reading, Read, stored, Discarding);
    ls := ls + [Label(1, Read)];
    First(ids, stored, ls, stored, Discarding, Discarding, Discard, None, Choosing);
    ls := ls + [Label(0, Discard)];
    First(ids, stored, ls, None, Choosing, Discarding, Choose(x), None, Storing(x));
    ls := ls + [Label(0, Choose(x))];
    First(ids, stored, ls, None, Storing(x), Discarding, Store, Some(x), Returned(x));
    ls := ls + [Label(0, Store)];
    Second(ids, stored, ls, Some(x), Returned(x), Discarding, Discard, None, Choosing);
    ls := ls + [Label(1, Discard)];
    Second(ids, stored, ls, None, Returned(x), Choosing, Choose(y), None, Storing(y));
    ls := ls + [Label(1, Choose(y))];
    Second(ids, stored, ls, None, Returned(x), Storing(y), Store, Some(y), Returned(y));
    ls := ls + [Label(1, Store)];
    s := Two(Some(y), Returned(x), Returned(y));
    TwoDisagree(Some(y), x, y);
  }

  /** An empty stored ID is neither found nor stale: it blocks the store and every request keeps its own choice. */
  lemma EmptyDisagrees(ids: set<string>, stored: Option<string>, ls0: seq<Label>, a: Pc, x: string, y: string)
    returns (ls: seq<Label>, s: State)
    requires Reaches(ids, stored, ls0, Two(Some(""), a, Reading)) && a == Returned(x) && y in ids && x != y
    ensures Reaches(ids, stored, ls, s) && !Agree(s)
  {
    hide Reaches, CanRun, AfterRun;
    ls := ls0;
    Second(ids, stored, ls, Some(""), a, Reading, Read, Some(""), Choosing);
    ls := ls + [Label(1, Read)];
    Second(ids, stored, ls, Some(""), a, Choosing, Choose(y), Some(""), Storing(y));
    ls := ls + [Label(1, Choose(y))];
    Second(ids, stored, ls, Some(""), a, Storing(y), Store, Some(""), Rereading(y));
    ls := ls + [Label(1, Store)];
    Second(ids, stored, ls, Some(""), a, Rereading(y), Read, Some(""), Returned(y));
    ls := ls + [Label(1, Read)];
    s := Two(Some(""), Returned(x), Returned(y));
    TwoDisagree(Some(""), x, y);
  }

  lemma EmptyStoredDisagrees(ids: set<string>, x: string, y: string) returns (ls: seq<Label>, s: State)
    requires x in ids && y in ids && x != y
    ensures Reaches(ids, Some(""), ls, s) && !Agree(s)
  {
    hide Reaches, CanRun, AfterRun;
    ls := BothArrive(ids, Some(""));
    First(ids, Some(""), ls, Some(""), Reading, Reading, Read, Some(""), Choosing);
    ls := ls + [Label(0, Read)];
    First(ids, Some(""), ls, Some(""), Choosing, Reading, Choose(x), Some(""), Storing(x));
    ls := ls + [Label(0, Choose(x))];
    First(ids, Some(""), ls, Some(""), Storing(x), Reading, Store, Some(""), Rereading(x));
    ls := ls + [Label(0, Store)];
    First(ids, Some(""), ls, Some(""), Rereading(x), Reading, Read, Some(""), Returned(x));
    ls := ls + [Label(0, Read)];
    ls, s := EmptyDisagrees(ids, Some(""), ls, Returned(x), x, y);
  }

  lemma EmptyIdDisagrees(ids: set<string>, y: string) returns (ls: seq<Label>, s: State)
    requires "" in ids && y in ids && y != ""
    ensures Reaches(ids, None, ls, s) && !Agree(s)
  {
    hide Reaches, CanRun, AfterRun;
    ls := BothArrive(ids, None);
    First(ids, None, ls, None, Reading, Reading, Read, None, Choosing);
    ls := ls + [Label(0, Read)];
    First(ids, None, ls, None, Choosing, Reading, Choose(""), None, Storing(""));
    ls := ls + [Label(0, Choose(""))];
    First(ids, None, ls, None, Storing(""), Reading, Store, Some(""), Returned(""));
    ls := ls + [Label(0, Store)];
    ls, s := EmptyDisagrees(ids, None, ls, Returned(""), "", y);
  }

  /**
   With at least two keys to choose from, all requests of a session return the same key in every
   interleaving if and only if the store starts with a supported ID, or empty while no key has an
   empty ID. A stale ID left from an earlier configuration breaks it.
   */
  lemma AgreeIff(ids: set<string>, stored: Option<string>, x: string, y: string)
    requires x in ids && y in ids && x != y
    ensures AlwaysAgree(ids, stored) <==> Sound(ids, stored)
  {
    hide Agree, CanRun, AfterRun;
    if Sound(ids, stored) {
      SoundAgrees(ids, stored);
    } else {
      var ls, s;
      if Stale(ids, stored) {
        ls, s := StaleDisagrees(ids, stored, x, y);
      } else if stored == Some("") {
        ls, s := EmptyStoredDisagrees(ids, x, y);
      } else {
        ls, s := EmptyIdDisagrees(ids, if x == "" then y else x);
      }
    }
  }
}
