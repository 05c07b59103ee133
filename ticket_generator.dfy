/**
 * The synthetic ticket generator: one hundred tickets, ticket `i` built from
 * an issue drawn from a fixed table of ten. The random draw is a parameter:
 * `choices[i]` is the table position drawn for ticket `i`.
 */
module TicketGenerator {
  import opened Records

  /** One row of the issue table. */
  datatype Issue = Issue(problem: string, solution: string, category: string)

  const Issues: seq<Issue> := [
    Issue("Unable to activate international roaming",
          "Reset network settings and enable data roaming. Verify roaming is enabled on account.",
          "roaming"),
    Issue("Error code 5412 after SIM swap",
          "Error 5412 indicates authentication failure. Restart device and wait 10 minutes.",
          "technical"),
    Issue("Incorrect international charges",
          "Review call logs. Submit billing adjustment if confirmed.",
          "billing"),
    Issue("Voicemail not working after upgrade",
          "Reset voicemail password by dialing *611.",
          "technical"),
    Issue("Cannot receive SMS codes",
          "Check if SMS blocking is enabled.",
          "technical"),
    Issue("Slow data speeds in area",
          "Check network maintenance. Create ticket with location and speed test.",
          "network"),
    Issue("Account locked due to payment failure",
          "Verify payment method. Account unlock takes 2-4 hours.",
          "billing"),
    Issue("eSIM activation failing",
          "Ensure iOS is updated. Restart and retry QR code.",
          "technical"),
    Issue("Port-in request stuck",
          "Verify account number from old carrier. Port takes 2-24 hours.",
          "porting"),
    Issue("Device won't connect to 5G",
          "Verify device supports 5G bands. Toggle airplane mode.",
          "network")
  ]

  const TicketCount: nat := 100

  const Categories: set<string> := {"roaming", "technical", "billing", "network", "porting"}

  /** The table has ten rows, each with one of the five categories. */
  lemma IssueTable()
    ensures |Issues| == 10
    ensures forall k :: 0 <= k < |Issues| ==> Issues[k].category in Categories
  {
  }

  function DigitChar(d: nat): char
    requires d < 10
  {
    "0123456789"[d]
  }

  /** Decimal notation of `n` without leading zeros, as Python's `str(n)`. */
  function NatToString(n: nat): (s: string)
    ensures |s| >= 1
    ensures n >= 10 ==> |s| >= 2
    decreases n
  {
    if n < 10 then [DigitChar(n)] else NatToString(n / 10) + [DigitChar(n % 10)]
  }

  /** Different numbers have different decimal notations. */
  lemma {:induction false} NatToStringInjective(a: nat, b: nat)
    requires NatToString(a) == NatToString(b)
    ensures a == b
    decreases a
  {
    var s := NatToString(a);
    if a >= 10 && b >= 10 {
      assert s[..|s| - 1] == NatToString(a / 10) && s[..|s| - 1] == NatToString(b / 10);
      NatToStringInjective(a / 10, b / 10);
      assert DigitChar(a % 10) == s[|s| - 1] == DigitChar(b % 10);
    } else if a < 10 && b < 10 {
      assert DigitChar(a) == s[0] == DigitChar(b);
    }
  }

  /** The id of ticket `i`. */
  function TicketId(i: nat): string {
    "ticket_" + NatToString(i)
  }

  /** Different positions give different ticket ids. */
  lemma TicketIdInjective(i: nat, j: nat)
    requires TicketId(i) == TicketId(j)
    ensures i == j
  {
    var p := "ticket_";
    assert TicketId(i)[|p|..] == NatToString(i);
    assert TicketId(j)[|p|..] == NatToString(j);
    NatToStringInjective(i, j);
  }

  /** The dictionary built for ticket `i` from its drawn issue. */
  function TicketFor(i: nat, issue: Issue): Ticket {
    Ticket(TicketId(i), "Issue: " + issue.problem + " | Solution: " + issue.solution, issue.category)
  }

  /**
   * The generating loop: ticket `i` is built from row `choices[i]`. The
   * result has one hundred tickets with pairwise distinct ids, in position
   * order, each with its issue's text and one of the five categories.
   */
  method GenerateTickets(choices: seq<nat>) returns (tickets: seq<Ticket>)
    requires |choices| == TicketCount
    requires forall k :: 0 <= k < |choices| ==> choices[k] < |Issues|
    ensures |tickets| == TicketCount
    ensures forall i :: 0 <= i < |tickets| ==>
      && tickets[i].id == "ticket_" + NatToString(i)
      && tickets[i].text == "Issue: " + Issues[choices[i]].problem + " | Solution: " + Issues[choices[i]].solution
      && tickets[i].category == Issues[choices[i]].category
      && tickets[i].category in Categories
    ensures DistinctIds(tickets)
  {
    IssueTable();
    tickets := [];
    for i := 0 to TicketCount
      invariant |tickets| == i
      invariant forall k :: 0 <= k < i ==> tickets[k] == TicketFor(k, Issues[choices[k]])
    {
      var issue := Issues[choices[i]];
      tickets := tickets + [TicketFor(i, issue)];
    }
    forall i, j | 0 <= i < j < |tickets| ensures tickets[i].id != tickets[j].id {
      if tickets[i].id == tickets[j].id {
        TicketIdInjective(i, j);
      }
    }
  }
}
