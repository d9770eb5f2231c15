/** The capability every translation provider offers the translator: a name,
    an availability flag it owns, and a `translate` request whose answer
    comes from a remote service outside the model. */
module Providers {
  import opened Types

  /** The part of a provider's state a request can change. */
  datatype Status = Status(available: bool, served: nat)

  predicate IsRateLimit(o: Outcome) {
    o.Failure? && o.error.kind == RateLimit
  }

  /** The contract every concrete provider keeps: a RATE_LIMIT failure turns
      its availability off for good; no other answer touches the flag. */
  function AfterRequest(s: Status, o: Outcome): (t: Status)
    ensures t.served == s.served + 1
    ensures t.available <==> s.available && !IsRateLimit(o)
  {
    Status(s.available && !IsRateLimit(o), s.served + 1)
  }

  class Provider {
    const name: string
    /** The remote service: its answer to the `n`-th request this provider
        sends, for a given text and options. */
    const service: (string, TranslationOptions, nat) -> Outcome
    var available: bool
    var served: nat

    constructor (name: string, service: (string, TranslationOptions, nat) -> Outcome)
      ensures this.name == name && this.service == service
      ensures available && served == 0
    {
      this.name := name;
      this.service := service;
      available := true;
      served := 0;
    }

    /** `isAvailable()`: false from the first rate-limit failure on. */
    function IsAvailable(): (b: bool)
      reads this
      ensures b == State().available
    {
      available
    }

    function State(): Status
      reads this
    {
      Status(available, served)
    }

    method Translate(text: string, options: TranslationOptions) returns (reply: Outcome)
      modifies this
      ensures reply == service(text, options, old(served))
      ensures State() == AfterRequest(old(State()), reply)
    {
      reply := service(text, options, served);
      if IsRateLimit(reply) {
        available := false;
      }
      served := served + 1;
    }
  }
}
