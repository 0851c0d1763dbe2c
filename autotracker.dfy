/**
 * An autotracker rule (next/model/autotracker.cc): a search term that,
 * when it occurs in the file name or title of the window the user works
 * in, suggests a project and task.
 */
module Autotracker {
  import opened Strings
  import opened BaseModels
  import opened TimelineEvents

  /**
   * `Matches` on the text of an event: the term occurs in the lower-cased
   * file name or in the lower-cased title. The term itself is not
   * lower-cased.
   */
  predicate TermMatches(term: string, filename: string, title: string) {
    Contains(ToLower(filename), term) || Contains(ToLower(title), term)
  }

  /** An empty term matches every event. */
  lemma EmptyTermMatchesEverything(filename: string, title: string)
    ensures TermMatches("", filename, title)
  {
    ContainsBounds(ToLower(filename), "");
  }

  /** A term with an upper-case ASCII letter never matches, whatever the event. */
  lemma UpperCaseTermNeverMatches(term: string, filename: string, title: string)
    requires HasUpperAscii(term)
    ensures !TermMatches(term, filename, title)
  {
    NoUpperInLowered(filename, term);
    NoUpperInLowered(title, term);
  }

  /** A term longer than both the file name and the title never matches. */
  lemma LongTermNeverMatches(term: string, filename: string, title: string)
    requires |term| > |filename| && |term| > |title|
    ensures !TermMatches(term, filename, title)
  {
    ContainsBounds(ToLower(filename), term);
    ContainsBounds(ToLower(title), term);
  }

  class AutotrackerRule {
    const base: BaseModel
    var term: string
    var pid: nat
    var tid: nat

    constructor()
      ensures fresh(base)
      ensures base.localId == 0 && base.id == 0 && !base.dirty
      ensures term == "" && pid == 0 && tid == 0
    {
      base := new BaseModel();
      term, pid, tid := "", 0, 0;
    }

    /** `Matches`: the rule's term matches the event's file name or title. */
    predicate Matches(event: TimelineEvent)
      reads this, event
    {
      TermMatches(term, event.filename, event.title)
    }

    /** `ModelURL`: rules are not pushed through the batch API, so there is no URL. */
    function ModelURL(): (r: string)
      ensures |r| == 0
    {
      ""
    }

    method SetTerm(value: string)
      modifies this`term, base`dirty
      ensures term == value
      ensures base.dirty == (old(base.dirty) || old(term) != value)
    {
      if term != value {
        term := value;
        base.SetDirty();
      }
    }

    method SetPID(value: nat)
      modifies this`pid, base`dirty
      ensures pid == value
      ensures base.dirty == (old(base.dirty) || old(pid) != value)
    {
      if pid != value {
        pid := value;
        base.SetDirty();
      }
    }

    method SetTID(value: nat)
      modifies this`tid, base`dirty
      ensures tid == value
      ensures base.dirty == (old(base.dirty) || old(tid) != value)
    {
      if tid != value {
        tid := value;
        base.SetDirty();
      }
    }
  }

  /** A new rule, whose term is empty, matches every event. */
  lemma NewRuleMatchesEverything(rule: AutotrackerRule, event: TimelineEvent)
    requires rule.term == ""
    ensures rule.Matches(event)
  {
    EmptyTermMatchesEverything(event.filename, event.title);
  }
}
