/**
 * A declarative command lexicon: an ordered list of commands, each with the
 * phrases that select it. Every screen's `when` chain of `contains` tests is
 * proved equal to resolving its text against a lexicon of this shape, so that
 * "the first branch that matches wins" is stated once, here.
 */
module Lexicon {
  import opened Wrappers
  import opened Text

  datatype Entry<C> = Entry(command: C, patterns: seq<string>)

  /** The text contains at least one of the entry's phrases. */
  predicate Matches<C>(e: Entry<C>, s: string) {
    exists p :: p in e.patterns && Contains(s, p)
  }

  /** The position of the first entry at or after `from` that the text matches, or `|lex|`. */
  function MatchIndex<C>(lex: seq<Entry<C>>, s: string, from: nat): (k: nat)
    requires from <= |lex|
    ensures from <= k <= |lex|
    ensures k < |lex| ==> Matches(lex[k], s)
    ensures forall j :: from <= j < k ==> !Matches(lex[j], s)
    decreases |lex| - from
  {
    if from == |lex| then from
    else if Matches(lex[from], s) then from
    else MatchIndex(lex, s, from + 1)
  }

  /** The command of the first matching entry, if any. */
  function FirstMatch<C>(lex: seq<Entry<C>>, s: string): Option<C> {
    var k := MatchIndex(lex, s, 0);
    if k < |lex| then Some(lex[k].command) else None
  }

  /** First-match resolution, with `fallback` for text that matches no entry. */
  function Resolve<C>(lex: seq<Entry<C>>, s: string, fallback: C): C {
    FirstMatch(lex, s).GetOr(fallback)
  }

  /** Nothing is recognised exactly when no entry matches. */
  lemma NoMatchIff<C>(lex: seq<Entry<C>>, s: string)
    ensures FirstMatch(lex, s) == None <==> forall k :: 0 <= k < |lex| ==> !Matches(lex[k], s)
  {
  }

  /** The entry that matches first, with no earlier entry matching, decides the command. */
  lemma EarliestMatchWins<C>(lex: seq<Entry<C>>, s: string, k: nat)
    requires k < |lex| && Matches(lex[k], s)
    requires forall j :: 0 <= j < k ==> !Matches(lex[j], s)
    ensures FirstMatch(lex, s) == Some(lex[k].command)
  {
  }

  /** Resolution yields the fallback or some entry's command. */
  lemma ResolveRange<C>(lex: seq<Entry<C>>, s: string, fallback: C)
    ensures Resolve(lex, s, fallback) == fallback ||
            exists k :: 0 <= k < |lex| && Resolve(lex, s, fallback) == lex[k].command
  {
    var k := MatchIndex(lex, s, 0);
    if k < |lex| {
      assert Resolve(lex, s, fallback) == lex[k].command;
    }
  }

  /** Commands are unique and every entry has a phrase. */
  ghost predicate WellFormed<C>(lex: seq<Entry<C>>) {
    (forall i, j :: 0 <= i < j < |lex| ==> lex[i].command != lex[j].command) &&
    (forall i :: 0 <= i < |lex| ==> lex[i].patterns != [])
  }

  /** In a well-formed lexicon the command alone tells which entry matched first. */
  lemma {:induction false} ResolvedEntry<C>(lex: seq<Entry<C>>, s: string, k: nat)
    requires WellFormed(lex) && k < |lex|
    ensures FirstMatch(lex, s) == Some(lex[k].command) <==>
            Matches(lex[k], s) && forall j :: 0 <= j < k ==> !Matches(lex[j], s)
  {
    var m := MatchIndex(lex, s, 0);
    if FirstMatch(lex, s) == Some(lex[k].command) {
      assert m < |lex| && lex[m].command == lex[k].command;
      assert m == k;
    }
  }
}
