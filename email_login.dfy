/** The sign-in form's first step: an email field whose submit button is
    enabled only for an address of the shape `local@host.tld`, and a submit
    that asks the server to mail a one-time password. */
module EmailLogin {
  import opened Common

  const SendFailed: string := "Failed to send OTP. Please try again."

  /** What `\s` matches in a JavaScript regular expression: the ASCII
      whitespace characters, no-break space, the Unicode space separators,
      the line and paragraph separators, and the byte-order mark */
  predicate IsSpace(c: char) {
    var n := c as int;
    (9 <= n <= 13) || n == 32 || n == 0xA0 || n == 0x1680 || (0x2000 <= n <= 0x200A) ||
    n == 0x2028 || n == 0x2029 || n == 0x202F || n == 0x205F || n == 0x3000 || n == 0xFEFF
  }

  /** A character of `[^\s@]` */
  predicate IsPlain(c: char) {
    !IsSpace(c) && c != '@'
  }

  predicate AllPlain(s: string) {
    forall i :: 0 <= i < |s| ==> IsPlain(s[i])
  }

  /** The part after '@': plain characters with a '.' that is neither first nor last */
  predicate IsDomain(d: string) {
    AllPlain(d) && exists dot :: 0 < dot < |d| - 1 && d[dot] == '.'
  }

  /** `isValidEmail`: a '@' with plain characters before it and a domain after it */
  predicate IsValidEmail(email: string) {
    exists at :: 0 < at < |email| && email[at] == '@' && AllPlain(email[..at]) && IsDomain(email[at + 1..])
  }

  /** An address put together from its three parts */
  function Assemble(local: string, host: string, tld: string): string {
    local + "@" + host + "." + tld
  }

  /** The regular expression `^[^\s@]+@[^\s@]+\.[^\s@]+$`, read as a pattern:
      three non-empty runs of plain characters joined by '@' and '.' */
  ghost predicate MatchesEmailPattern(email: string) {
    exists local: string, host: string, tld: string ::
      email == Assemble(local, host, tld) &&
      local != "" && host != "" && tld != "" &&
      AllPlain(local) && AllPlain(host) && AllPlain(tld)
  }

  lemma PatternImpliesValid(email: string, local: string, host: string, tld: string)
    requires email == local + "@" + host + "." + tld
    requires local != "" && host != "" && tld != ""
    requires AllPlain(local) && AllPlain(host) && AllPlain(tld)
    ensures IsValidEmail(email)
  {
    var at := |local|;
    var d := host + "." + tld;
    assert email[..at] == local;
    assert email[at + 1..] == d;
    assert d[|host|] == '.';
    assert AllPlain(d) by {
      forall i | 0 <= i < |d| ensures IsPlain(d[i]) {
        if i < |host| {
          assert d[i] == host[i];
        } else if i > |host| {
          assert d[i] == tld[i - |host| - 1];
        }
      }
    }
    assert IsDomain(d);
  }

  lemma PatternWitness(email: string, local: string, host: string, tld: string)
    requires email == local + "@" + host + "." + tld
    requires local != "" && host != "" && tld != ""
    requires AllPlain(local) && AllPlain(host) && AllPlain(tld)
    ensures MatchesEmailPattern(email)
  {
  }

  lemma SlicePlain(s: string, i: nat, j: nat)
    requires AllPlain(s) && i <= j <= |s|
    ensures AllPlain(s[i..j])
  {
    assert forall k :: 0 <= k < j - i ==> s[i..j][k] == s[i + k];
  }

  /** Cutting an address at its '@' and at a '.' of the domain gives the three parts */
  lemma SplitIsPattern(email: string, at: nat, dot: nat)
    requires 0 < at < |email| && email[at] == '@'
    requires AllPlain(email[..at]) && AllPlain(email[at + 1..])
    requires 0 < dot < |email| - at - 2 && email[at + 1 + dot] == '.'
    ensures MatchesEmailPattern(email)
  {
    var d := email[at + 1..];
    var local, host, tld := email[..at], d[..dot], d[dot + 1..];
    SlicePlain(d, 0, dot);
    SlicePlain(d, dot + 1, |d|);
    assert d[..dot] == d[0..dot] && d[dot + 1..] == d[dot + 1..|d|];
    assert d == host + "." + tld by {
      assert d == d[..dot] + [d[dot]] + d[dot + 1..];
    }
    assert email == local + "@" + d by {
      assert email == email[..at] + [email[at]] + email[at + 1..];
    }
    assert local + "@" + (host + "." + tld) == local + "@" + host + "." + tld;
    PatternWitness(email, local, host, tld);
  }

  lemma ValidImpliesPattern(email: string)
    requires IsValidEmail(email)
    ensures MatchesEmailPattern(email)
  {
    var at :| 0 < at < |email| && email[at] == '@' && AllPlain(email[..at]) && IsDomain(email[at + 1..]);
    var d := email[at + 1..];
    var dot :| 0 < dot < |d| - 1 && d[dot] == '.';
    SplitIsPattern(email, at, dot);
  }

  /** The check accepts exactly the addresses the regular expression matches */
  lemma ValidIffPattern(email: string)
    ensures IsValidEmail(email) <==> MatchesEmailPattern(email)
  {
    if IsValidEmail(email) {
      ValidImpliesPattern(email);
    }
    if MatchesEmailPattern(email) {
      var local: string, host: string, tld: string :|
        email == Assemble(local, host, tld) &&
        local != "" && host != "" && tld != "" &&
        AllPlain(local) && AllPlain(host) && AllPlain(tld);
      PatternImpliesValid(email, local, host, tld);
    }
  }

  /** An accepted address has no whitespace and exactly one '@' */
  lemma ValidEmailShape(email: string)
    requires IsValidEmail(email)
    ensures forall i :: 0 <= i < |email| ==> !IsSpace(email[i])
    ensures multiset(email)['@'] == 1
  {
    var at :| 0 < at < |email| && email[at] == '@' && AllPlain(email[..at]) && IsDomain(email[at + 1..]);
    var local, d := email[..at], email[at + 1..];
    assert email == local + "@" + d;
    forall i | 0 <= i < |email| ensures !IsSpace(email[i]) {
      if i < at {
        assert email[i] == local[i];
      } else if i > at {
        assert email[i] == d[i - at - 1];
      }
    }
    assert '@' !in local by {
      forall i | 0 <= i < |local| ensures local[i] != '@' {
        assert IsPlain(local[i]);
      }
    }
    assert '@' !in d by {
      forall i | 0 <= i < |d| ensures d[i] != '@' {
        assert IsPlain(d[i]);
      }
    }
    assert multiset(email) == multiset(local) + multiset("@") + multiset(d);
  }

  /** An address without a '.' is refused */
  lemma NoDotInvalid(email: string)
    requires '.' !in email
    ensures !IsValidEmail(email)
  {
  }

  /** An address the button accepts */
  lemma AcceptedExample()
    ensures IsValidEmail("admin@exhiibot.com")
  {
    PatternImpliesValid("admin@exhiibot.com", "admin", "exhiibot", "com");
  }

  /** An address without a top-level domain, which the button refuses */
  lemma RefusedExample()
    ensures !IsValidEmail("admin@exhiibot")
  {
    NoDotInvalid("admin@exhiibot");
  }

  class EmailForm {
    var email: string
    var isLoading: bool
    var error: string

    constructor ()
      ensures email == "" && !isLoading && error == ""
    {
      email := "";
      isLoading := false;
      error := "";
    }

    /** The submit button's `disabled` */
    predicate SubmitDisabled()
      reads this
    {
      !IsValidEmail(email) || isLoading
    }

    /** Typing into the field */
    method SetEmail(value: string)
      modifies this
      ensures email == value && isLoading == old(isLoading) && error == old(error)
    {
      email := value;
    }

    /** Submitting clears the error, starts loading and sends the address
        as it is at that moment */
    method BeginSubmit() returns (sent: string)
      modifies this
      ensures sent == email && email == old(email)
      ensures error == "" && isLoading
    {
      error := "";
      isLoading := true;
      sent := email;
    }

    /** The `login` outcome: success hands the submitted address to the next
        step; failure shows the message or the fallback; loading ends */
    method EndSubmit(submitted: string, outcome: Result<()>) returns (handedOver: Option<string>)
      modifies this
      ensures !isLoading && email == old(email)
      ensures handedOver.Some? <==> outcome.Ok?
      ensures outcome.Ok? ==> handedOver == Some(submitted) && error == old(error)
      ensures outcome.Err? ==> error == MessageOr(outcome.message, SendFailed)
    {
      match outcome {
        case Ok(_) =>
          handedOver := Some(submitted);
        case Err(message) =>
          error := MessageOr(message, SendFailed);
          handedOver := None;
      }
      isLoading := false;
    }
  }
}
