/** The second job advancement of warriors, scripts/npc/1022000.js: a dialogue whose pages
    can be walked back and forth, and which changes the job once.

    While the dialogue is open only the script changes the player's inventory and job. The
    Hall of Fame offer and the first and third job branches are not part of this model, so
    the player is a warrior or no candidate at all. */
module JobAdvancement {

  const WARRIOR := 100
  const FIGHTER := 110
  const PAGE := 120
  const SPEARMAN := 130

  /** What the client shows, and so what it can answer. */
  datatype Page = Nothing | Next | NextPrev | Menu(entries: nat) | YesNo

  /** The player, with a record of the calls that the script makes on the host. */
  datatype Candidate = Candidate(
    jobId: int,
    level: int,
    proofs: nat,            // item 4031012
    letters: nat,           // item 4031008
    jobChanges: seq<int>,   // changeJobById
    completions: nat)       // completeQuest(100005)

  datatype Talk = Talk(status: int, secondJob: bool, job: int, page: Page, closed: bool, player: Candidate)

  datatype Reply = Reply(mode: int, kind: int, selection: int, canHold: bool)

  function Kind(p: Page): int {
    if p.Menu? then 4 else if p.YesNo? then 1 else 0
  }

  /** The replies that a page offers: 1 goes on, 0 is Prev, No or the cancelled menu, and -1
      ends the chat. */
  ghost predicate Legal(t: Talk, r: Reply) {
    && !t.closed && r.kind == Kind(t.page)
    && match t.page
       case Nothing => false
       case Next => r.mode in {1, -1}
       case NextPrev => r.mode in {1, 0, -1}
       case Menu(n) => r.mode in {1, 0, -1} && (r.mode == 1 ==> 0 <= r.selection < n)
       case YesNo => r.mode in {1, 0, -1}
  }

  // ----- start and action, as functions of the state -----

  ghost function Started(t: Talk): Talk {
    if t.player.level >= 30 && t.player.jobId == WARRIOR then
      var u := t.(secondJob := true);
      if t.player.proofs > 0 then u.(page := Next)
      else if t.player.letters > 0 then u.(page := Next, closed := true)
      else u.(page := Next)
    else t.(page := Next, closed := true)
  }

  ghost function Turned(t: Talk, r: Reply): Talk {
    match t.status
    case 0 => t.(page := if t.player.proofs > 0 then Menu(4) else Next)
    case 1 =>
      if t.player.proofs == 0 then
        if !r.canHold then t.(page := Next, closed := true)
        else t.(page := NextPrev, player := t.player.(letters := if t.player.letters > 0 then t.player.letters else 1))
      else if r.selection < 3 then t.(page := Next, status := -1)
      else t.(page := Menu(3))
    case 2 =>
      if t.player.letters > 0 then t.(closed := true)
      else t.(page := YesNo, job := t.job + r.selection * 10)
    case 3 => t.(page := Next, player := Advanced(t.player, t.job))
    case 4 => t.(page := NextPrev)
    case 5 => t.(page := NextPrev)
    case 6 => t.(page := NextPrev)
    case _ => t
  }

  ghost function Advanced(c: Candidate, job: int): Candidate {
    c.(proofs := if c.proofs > 0 then c.proofs - 1 else 0,
       completions := c.completions + 1,
       jobId := job,
       jobChanges := if c.jobId != job then c.jobChanges + [job] else c.jobChanges)
  }

  ghost function Acted(t: Talk, r: Reply): Talk {
    var back := r.mode == 0 && r.kind != 1;
    var u := t.(status := if back then t.status - 1 else t.status + 1);
    if r.mode == -1 && r.selection == -1 then u.(closed := true)
    else if u.status == -1 then Started(u)
    else if !back && (r.mode != 1 || (u.status == 7 && r.kind != 1) || (u.player.letters > 0 && u.status == 2))
    then u.(closed := true)
    else if u.secondJob then Turned(u, r)
    else u
  }

  class Conversation {
    var status: int
    var secondJob: bool
    var job: int
    var page: Page
    var closed: bool
    var jobId: int
    var level: int
    var proofs: nat
    var letters: nat
    var jobChanges: seq<int>
    var completions: nat

    ghost function View(): Talk
      reads this
    {
      Talk(status, secondJob, job, page, closed, Candidate(jobId, level, proofs, letters, jobChanges, completions))
    }

    constructor (jobId: int, level: int, proofs: nat, letters: nat)
      ensures View() == Opened(Candidate(jobId, level, proofs, letters, [], 0))
    {
      status, secondJob, job, page, closed := -1, false, 110, Nothing, false;
      this.jobId, this.level, this.proofs, this.letters := jobId, level, proofs, letters;
      jobChanges, completions := [], 0;
    }

    method Start()
      modifies this
      ensures View() == Started(old(View()))
    {
      if level >= 30 && jobId == 100 {
        secondJob := true;
        if proofs > 0 {
          page := Next;
        } else if letters > 0 {
          page := Next;
          closed := true;
        } else {
          page := Next;
        }
      } else {
        page := Next;
        closed := true;
      }
    }

    method Action(mode: int, kind: int, selection: int, canHold: bool)
      modifies this
      ensures View() == Acted(old(View()), Reply(mode, kind, selection, canHold))
    {
      status := status + 1;
      if mode == -1 && selection == -1 {
        closed := true;
        return;
      } else if mode == 0 && kind != 1 {
        status := status - 2;
      }
      if status == -1 {
        Start();
        return;
      } else if mode != 1 || (status == 7 && kind != 1) || (letters > 0 && status == 2) {
        if !(mode == 0 && kind != 1) {
          closed := true;
          return;
        }
      }
      if secondJob {
        TurnPage(selection, canHold);
      }
    }

    method TurnPage(selection: int, canHold: bool)
      modifies this
      ensures forall mode, kind :: View() == Turned(old(View()), Reply(mode, kind, selection, canHold))
    {
      if status == 0 {
        if proofs > 0 {
          page := Menu(4);
        } else {
          page := Next;
        }
      } else if status == 1 {
        if proofs == 0 {
          if canHold {
            if letters == 0 {
              letters := 1;
            }
            page := NextPrev;
          } else {
            page := Next;
            closed := true;
          }
        } else {
          if selection < 3 {
            page := Next;
            status := status - 2;
          } else {
            page := Menu(3);
          }
        }
      } else if status == 2 {
        if letters > 0 {
          closed := true;
          return;
        }
        job := job + selection * 10;
        page := YesNo;
      } else if status == 3 {
        if proofs > 0 {
          proofs := proofs - 1;
        }
        completions := completions + 1;
        page := Next;
        if jobId != job {
          jobId := job;
          jobChanges := jobChanges + [job];
        }
      } else if status == 4 || status == 5 || status == 6 {
        page := NextPrev;
      }
    }
  }

  ghost function Opened(c: Candidate): Talk {
    Talk(-1, false, 110, Nothing, false, c)
  }

  // ----- whole dialogues -----

  ghost predicate LegalRun(t: Talk, replies: seq<Reply>) {
    replies == [] ||
    (LegalRun(t, replies[..|replies| - 1]) && Legal(Play(t, replies[..|replies| - 1]), replies[|replies| - 1]))
  }

  ghost function Play(t: Talk, replies: seq<Reply>): Talk {
    if replies == [] then t else Acted(Play(t, replies[..|replies| - 1]), replies[|replies| - 1])
  }

  /** A warrior without a second job, for whom the script has done nothing yet. */
  ghost predicate Newcomer(c: Candidate) {
    c.jobId == WARRIOR && c.jobChanges == [] && c.completions == 0
  }

  ghost predicate Untouched(c: Candidate, d: Candidate) {
    d == c.(letters := d.letters) && (d.letters == c.letters || (c.proofs == 0 && c.letters == 0 && d.letters == 1))
  }

  /** The job has been changed once, to the one chosen; each visit to the advancement page
      has taken a proof as long as there was one. */
  ghost predicate Promoted(c: Candidate, d: Candidate, job: int) {
    && c.proofs > 0 && c.letters == 0 && c.level >= 30
    && job in {FIGHTER, PAGE, SPEARMAN} && d.completions >= 1
    && d == c.(jobId := job, jobChanges := [job], completions := d.completions,
               proofs := if c.proofs > d.completions then c.proofs - d.completions else 0)
  }

  ghost predicate InDialogue(c: Candidate, t: Talk) {
    && (Untouched(c, t.player) || Promoted(c, t.player, t.job))
    && (t.closed || Standing(c, t))
  }

  /** Which page is open, and what has happened before it. */
  ghost predicate Standing(c: Candidate, t: Talk) {
    match t.status
    case -1 => t.page == Next && t.job == 110 && Untouched(c, t.player) && Chosen(c, t)
    case 0 => t.job == 110 && Untouched(c, t.player) && Chosen(c, t)
              && t.page == if c.proofs > 0 then Menu(4) else Next
    case 1 => t.job == 110 && Untouched(c, t.player) && Chosen(c, t)
              && if c.proofs > 0 then t.page == Menu(3) else t.page == NextPrev && t.player.letters > 0
    case 2 => t.page == YesNo && t.job in {FIGHTER, PAGE, SPEARMAN} && Untouched(c, t.player) && Chosen(c, t)
              && c.proofs > 0 && c.letters == 0
    case 3 => t.page == Next && Promoted(c, t.player, t.job) && t.secondJob
    case 4 => t.page == NextPrev && Promoted(c, t.player, t.job) && t.secondJob
    case 5 => t.page == NextPrev && Promoted(c, t.player, t.job) && t.secondJob
    case 6 => t.page == NextPrev && Promoted(c, t.player, t.job) && t.secondJob
    case _ => false
  }

  ghost predicate Chosen(c: Candidate, t: Talk) {
    t.secondJob && c.level >= 30 && c.jobId == WARRIOR
  }

  lemma StartStaysInDialogue(c: Candidate)
    requires Newcomer(c)
    ensures InDialogue(c, Started(Opened(c)))
  {
  }

  lemma ReplyStaysInDialogue(c: Candidate, t: Talk, r: Reply)
    requires Newcomer(c) && InDialogue(c, t) && Legal(t, r)
    ensures InDialogue(c, Acted(t, r))
  {
  }

  /** Every legal dialogue leaves the player as they were, but for the letter, or promoted once. */
  lemma {:induction false} DialoguePromotesAtMostOnce(c: Candidate, replies: seq<Reply>)
    requires Newcomer(c) && LegalRun(Started(Opened(c)), replies)
    ensures InDialogue(c, Play(Started(Opened(c)), replies))
  {
    if replies == [] {
      StartStaysInDialogue(c);
    } else {
      var init := replies[..|replies| - 1];
      DialoguePromotesAtMostOnce(c, init);
      ReplyStaysInDialogue(c, Play(Started(Opened(c)), init), replies[|replies| - 1]);
    }
  }

  /** The letter is given on the second page, to a candidate who has neither proof nor letter and
      room for it, and to nobody else. */
  lemma LetterIsGivenIff(c: Candidate, t: Talk, r: Reply)
    requires Newcomer(c) && InDialogue(c, t) && Legal(t, r)
    ensures var u := Acted(t, r);
            && (u.player.letters != t.player.letters <==>
                  t.status == 0 && r.mode == 1 && r.canHold && t.player.proofs == 0 && t.player.letters == 0)
            && u.player.letters <= t.player.letters + 1
  {
  }

  /** The dialogue opens for a warrior of level 30 or more, unless the letter is all that the
      player has to show. */
  lemma OpensIff(c: Candidate)
    ensures var t := Started(Opened(c));
            && t.player == c && t.page == Next && t.status == -1
            && (!t.closed <==> c.jobId == 100 && c.level >= 30 && (c.proofs > 0 || c.letters == 0))
  {
  }

  /** From there it ends with a refusal, after the last page, for want of room, or for a
      candidate who comes back with the letter; otherwise it goes on. */
  lemma ReplyClosesIff(c: Candidate, t: Talk, r: Reply)
    requires Newcomer(c) && InDialogue(c, t) && Legal(t, r)
    ensures Acted(t, r).closed <==>
              || r.mode == -1 || (r.mode == 0 && t.page.YesNo?)
              || (r.mode == 1 && t.status == 6)
              || (r.mode == 1 && t.status == 1 && t.player.letters > 0)
              || (r.mode == 1 && t.status == 0 && t.player.proofs == 0 && !r.canHold)
  {
  }

  /** The choice is added to the default job once, behind the fourth entry of the first menu,
      and no dialogue comes back to it. */
  lemma JobIsChosenOnce(c: Candidate, t: Talk, r: Reply)
    requires Newcomer(c) && InDialogue(c, t) && Legal(t, r)
    ensures var u := Acted(t, r);
            && (u.job != t.job ==> t.status == 1 && t.job == 110 && u.job == 110 + 10 * r.selection <= 130)
            && (u.page.YesNo? && !u.closed <==> t.status == 1 && t.page == Menu(3) && r.mode == 1 && c.letters == 0)
            && (t.status >= 2 ==> u.status >= 3 || u.closed)
            && (t.page == Menu(4) && r.mode == 1 ==>
                  if r.selection == 3 then u.status == 1 && u.page == Menu(3) else u.status == -1 && u.page == Next)
  {
  }

  /** A proof of trial is consumed exactly when the job changes, one for each visit to the
      advancement page as long as there is one; never two from a player who brings a letter,
      a lower level or a single proof. */
  lemma ProofPaysForPromotion(c: Candidate, replies: seq<Reply>)
    requires Newcomer(c) && LegalRun(Started(Opened(c)), replies)
    ensures var d := Play(Started(Opened(c)), replies).player;
            && |d.jobChanges| <= 1 && (forall j :: j in d.jobChanges ==> j in {FIGHTER, PAGE, SPEARMAN})
            && (d.jobId != c.jobId <==> d.completions > 0)
            && (d.proofs < c.proofs <==> d.completions > 0)
            && (d.completions > 0 ==> (d.proofs == c.proofs - 1 <==> d.completions == 1 || c.proofs == 1))
            && (d.proofs < c.proofs - 1 ==> c.level >= 30 && c.proofs >= 2 && c.letters == 0)
  {
    DialoguePromotesAtMostOnce(c, replies);
  }

  /** The shortest way to the page behind the advancement: the menu, the choice, one of the
      three jobs, yes. */
  ghost function ToFirstBook(choice: int): seq<Reply> {
    [Reply(1, 0, -1, true), Reply(1, 4, 3, true), Reply(1, 4, choice, true), Reply(1, 1, -1, true),
     Reply(1, 0, -1, true)]
  }

  lemma PlayNext(t: Talk, replies: seq<Reply>, k: nat)
    requires k < |replies|
    ensures Play(t, replies[..k + 1]) == Acted(Play(t, replies[..k]), replies[k])
    ensures LegalRun(t, replies[..k + 1]) <==> LegalRun(t, replies[..k]) && Legal(Play(t, replies[..k]), replies[k])
  {
    assert replies[..k + 1][..k] == replies[..k];
  }

  lemma FirstBookIsReachable(c: Candidate, choice: int, r: seq<Reply>)
    requires Newcomer(c) && c.level >= 30 && c.proofs > 0 && c.letters == 0
    requires 0 <= choice < 3 && r == ToFirstBook(choice)
    ensures LegalRun(Started(Opened(c)), r)
    ensures var t := Play(Started(Opened(c)), r);
            t.status == 4 && t.page == NextPrev && !t.closed && t.secondJob && t.player.proofs == c.proofs - 1
            && t.player.jobId == 110 + 10 * choice
  {
    var t := Started(Opened(c));
    assert r[..0] == [] && r[..5] == r;
    PlayNext(t, r, 0);
    PlayNext(t, r, 1);
    PlayNext(t, r, 2);
    PlayNext(t, r, 3);
    PlayNext(t, r, 4);
  }

  /** Turning back from there to the advancement page takes a second proof from a player who
      holds two or more. */
  lemma TurningBackTakesAnotherProof(c: Candidate, replies: seq<Reply>)
    requires Newcomer(c) && c.level >= 30 && c.proofs >= 2 && c.letters == 0
    requires replies == ToFirstBook(0) + [Reply(0, 0, -1, true)]
    ensures LegalRun(Started(Opened(c)), replies)
    ensures Play(Started(Opened(c)), replies).player.proofs == c.proofs - 2
  {
    var r := ToFirstBook(0);
    FirstBookIsReachable(c, 0, r);
    assert replies[..5] == r && replies[..6] == replies;
    PlayNext(Started(Opened(c)), replies, 5);
  }

  /** "One proof only" holds of every dialogue with a player exactly if the player is no
      candidate, carries at most one proof, or already has the letter. */
  lemma OneProofOnlyIff(c: Candidate)
    requires Newcomer(c)
    ensures (forall replies :: LegalRun(Started(Opened(c)), replies)
                               ==> Play(Started(Opened(c)), replies).player.proofs >= c.proofs - 1)
            <==> c.level < 30 || c.proofs <= 1 || c.letters > 0
  {
    if c.level >= 30 && c.proofs >= 2 && c.letters == 0 {
      TurningBackTakesAnotherProof(c, ToFirstBook(0) + [Reply(0, 0, -1, true)]);
    } else {
      forall replies | LegalRun(Started(Opened(c)), replies)
        ensures Play(Started(Opened(c)), replies).player.proofs >= c.proofs - 1
      {
        ProofPaysForPromotion(c, replies);
      }
    }
  }

  /** And some dialogue promotes a player, to whichever of the three jobs, exactly if the player
      has the level and a proof but not the letter. */
  lemma PromotionIsReachableIff(c: Candidate, choice: int)
    requires Newcomer(c) && 0 <= choice < 3
    ensures (exists replies :: LegalRun(Started(Opened(c)), replies)
                               && Play(Started(Opened(c)), replies).player.jobId == 110 + 10 * choice)
            <==> c.level >= 30 && c.proofs > 0 && c.letters == 0
  {
    if c.level >= 30 && c.proofs > 0 && c.letters == 0 {
      FirstBookIsReachable(c, choice, ToFirstBook(choice));
    }
    forall replies | LegalRun(Started(Opened(c)), replies)
      ensures Play(Started(Opened(c)), replies).player.jobId != c.jobId
              ==> c.level >= 30 && c.proofs > 0 && c.letters == 0
    {
      DialoguePromotesAtMostOnce(c, replies);
    }
  }
}
