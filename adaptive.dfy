/**
 * Adaptive events: a single slot holding the latest follow-up suggestion,
 * written by a request, emptied by a clear, and read-and-emptied by a consume.
 */
module Adaptive {
  import opened Wrappers

  class Mailbox {
    var latestSuggestion: Option<string>

    constructor()
      ensures latestSuggestion == None
    {
      latestSuggestion := None;
    }

    method RequestFollowUp(prompt: string)
      modifies this
      ensures latestSuggestion == Some(prompt)
    {
      latestSuggestion := Some(prompt);
    }

    method ClearSuggestion()
      modifies this
      ensures latestSuggestion == None
    {
      latestSuggestion := None;
    }

    /** Hands back what the slot held and leaves it empty. */
    method ConsumeSuggestion() returns (v: Option<string>)
      modifies this
      ensures v == old(latestSuggestion) && latestSuggestion == None
    {
      v := latestSuggestion;
      latestSuggestion := None;
    }
  }

  /** Of two requests in a row only the second is kept. */
  method RequestTwice(box: Mailbox, first: string, second: string)
    modifies box
    ensures box.latestSuggestion == Some(second)
  {
    box.RequestFollowUp(first);
    box.RequestFollowUp(second);
  }

  /** Two consumes in a row return the suggestion and then nothing. */
  method ConsumeTwice(box: Mailbox) returns (a: Option<string>, b: Option<string>)
    modifies box
    ensures a == old(box.latestSuggestion) && b == None && box.latestSuggestion == None
  {
    a := box.ConsumeSuggestion();
    b := box.ConsumeSuggestion();
  }
}
