/** invite_users: the list of people is checked and normalised, email addresses in place. */
module Invitations {
  import opened Basics
  import opened Text

  const MAX_PER_REQUEST := 100

  /** Positions are those of the person and of the address. */
  datatype Error =
    | NoInvitations
    | TooManyPeople
    | FirstNameRequired(i: nat)
    | EmailRequired(i: nat)
    | EmailBlank(i: nat, j: nat)
    | EmailNotBare(i: nat, j: nat)
    | TooManyEmails

  datatype Result<+T> = Ok(value: T) | Err(error: Error)

  /** An invitation as a value. */
  datatype Person = Person(firstName: Str, lastName: Str, emails: seq<Str>, phones: seq<Str>)

  /** strings.ContainsAny(e, "<> ") */
  predicate Bare(e: Str) {
    '<' !in e && '>' !in e && ' ' !in e
  }

  // ----- normal form -----

  function TrimPerson(p: Person): Person {
    Person(TrimSpace(p.firstName), TrimSpace(p.lastName), Trimmed(p.emails), Trimmed(p.phones))
  }

  function TrimAll(people: seq<Person>): (r: seq<Person>)
    ensures |r| == |people|
  {
    seq(|people|, i requires 0 <= i < |people| => TrimPerson(people[i]))
  }

  function NonBlank(items: seq<Str>): seq<Str> {
    if items == [] then []
    else
      var before, last := NonBlank(items[..|items| - 1]), items[|items| - 1];
      if last != "" then before + [last] else before
  }

  /** What is sent for a trimmed person: blank phone numbers are dropped. */
  function Send(p: Person): Person {
    p.(phones := NonBlank(p.phones))
  }

  function SendAll(people: seq<Person>): (r: seq<Person>)
    ensures |r| == |people|
  {
    seq(|people|, i requires 0 <= i < |people| => Send(people[i]))
  }

  function TotalEmails(people: seq<Person>): nat {
    if people == [] then 0 else TotalEmails(people[..|people| - 1]) + |people[|people| - 1].emails|
  }

  // ----- the first problem of a trimmed list, in the order of the checks -----

  function EmailProblem(e: Str, i: nat, j: nat): Option<Error> {
    if e == "" then Some(EmailBlank(i, j)) else if !Bare(e) then Some(EmailNotBare(i, j)) else None
  }

  function EmailsProblem(emails: seq<Str>, i: nat): Option<Error> {
    if emails == [] then None
    else
      var before := EmailsProblem(emails[..|emails| - 1], i);
      if before.Some? then before else EmailProblem(emails[|emails| - 1], i, |emails| - 1)
  }

  function PersonProblem(p: Person, i: nat): Option<Error> {
    if p.firstName == "" then Some(FirstNameRequired(i))
    else if p.emails == [] then Some(EmailRequired(i))
    else EmailsProblem(p.emails, i)
  }

  function PeopleProblem(people: seq<Person>): Option<Error> {
    if people == [] then None
    else
      var before := PeopleProblem(people[..|people| - 1]);
      if before.Some? then before else PersonProblem(people[|people| - 1], |people| - 1)
  }

  function Problem(people: seq<Person>): Option<Error> {
    if people == [] then Some(NoInvitations)
    else if |people| > MAX_PER_REQUEST then Some(TooManyPeople)
    else if PeopleProblem(people).Some? then PeopleProblem(people)
    else if TotalEmails(people) > MAX_PER_REQUEST then Some(TooManyEmails)
    else None
  }

  // ----- what acceptance means -----

  /** An address that is there and has no `<`, `>` or space in it. */
  predicate Usable(e: Str) {
    e != "" && '<' !in e && '>' !in e && ' ' !in e
  }

  predicate Addressable(p: Person) {
    p.firstName != "" && p.emails != [] && forall e :: e in p.emails ==> Usable(e)
  }

  lemma {:induction false} EmailsFine(emails: seq<Str>, i: nat)
    ensures EmailsProblem(emails, i).None? <==> forall e :: e in emails ==> Usable(e)
  {
    if emails != [] {
      var init, last := emails[..|emails| - 1], emails[|emails| - 1];
      EmailsFine(init, i);
      assert emails == init + [last] && last in emails;
      assert forall e :: e in emails <==> e in init || e == last;
    }
  }

  lemma PersonFine(p: Person, i: nat)
    ensures PersonProblem(p, i).None? <==> Addressable(p)
  {
    EmailsFine(p.emails, i);
  }

  lemma {:induction false} PeopleFine(people: seq<Person>)
    ensures PeopleProblem(people).None? <==> forall p :: p in people ==> Addressable(p)
  {
    if people != [] {
      var init, last := people[..|people| - 1], people[|people| - 1];
      PeopleFine(init);
      assert people == init + [last];
      PersonFine(last, |people| - 1);
    }
  }

  /** What a refusal says of the addresses of the person at `i`: this is the first that cannot be used. */
  ghost predicate EmailFault(emails: seq<Str>, i: nat, e: Error) {
    && (e.EmailBlank? || e.EmailNotBare?) && e.i == i && e.j < |emails|
    && (forall l :: 0 <= l < e.j ==> Usable(emails[l]))
    && (if e.EmailBlank? then emails[e.j] == ""
        else emails[e.j] != "" && ('<' in emails[e.j] || '>' in emails[e.j] || ' ' in emails[e.j]))
  }

  ghost predicate PersonFault(p: Person, i: nat, e: Error) {
    if p.firstName == "" then e == FirstNameRequired(i)
    else if p.emails == [] then e == EmailRequired(i)
    else EmailFault(p.emails, i, e)
  }

  /** What a refusal of trimmed people says: the first thing that is wrong with them. */
  ghost predicate Refuses(people: seq<Person>, e: Error) {
    match e
    case NoInvitations => people == []
    case TooManyPeople => |people| > 100
    case TooManyEmails =>
      1 <= |people| <= 100 && (forall p :: p in people ==> Addressable(p)) && TotalEmails(people) > 100
    case _ =>
      && 1 <= |people| <= 100 && e.i < |people| && PersonFault(people[e.i], e.i, e)
      && forall k :: 0 <= k < e.i ==> Addressable(people[k])
  }

  lemma {:induction false} EmailsRefused(emails: seq<Str>, i: nat)
    ensures EmailsProblem(emails, i).Some? ==> EmailFault(emails, i, EmailsProblem(emails, i).value)
  {
    if emails != [] {
      var init := emails[..|emails| - 1];
      EmailsRefused(init, i);
      EmailsFine(init, i);
      assert forall l :: 0 <= l < |init| ==> init[l] in init && emails[l] == init[l];
    }
  }

  lemma PersonRefused(p: Person, i: nat)
    ensures PersonProblem(p, i).Some? ==> PersonFault(p, i, PersonProblem(p, i).value)
  {
    EmailsRefused(p.emails, i);
  }

  predicate AtPerson(e: Error) {
    e.FirstNameRequired? || e.EmailRequired? || e.EmailBlank? || e.EmailNotBare?
  }

  lemma {:induction false} PeopleRefused(people: seq<Person>)
    ensures PeopleProblem(people).Some? ==>
      var e := PeopleProblem(people).value;
      && AtPerson(e) && e.i < |people| && PersonFault(people[e.i], e.i, e)
      && forall k :: 0 <= k < e.i ==> Addressable(people[k])
  {
    if people != [] {
      var n := |people| - 1;
      PeopleRefused(people[..n]);
      PeopleFine(people[..n]);
      PersonRefused(people[n], n);
      assert forall k :: 0 <= k < n ==> people[..n][k] in people[..n] && people[k] == people[..n][k];
    }
  }

  /** A refusal names the first thing that is wrong, in the order of the checks. */
  lemma RefusedFor(people: seq<Person>)
    ensures Problem(people).Some? ==> Refuses(people, Problem(people).value)
  {
    PeopleFine(people);
    PeopleRefused(people);
  }

  /** The addresses of two lists of people are counted together. */
  lemma {:induction false} TotalAdds(a: seq<Person>, b: seq<Person>)
    ensures TotalEmails(a + b) == TotalEmails(a) + TotalEmails(b)
    ensures |a| == 1 ==> TotalEmails(a) == |a[0].emails|
    decreases |b|
  {
    assert |a| == 1 ==> a[..0] == [];
    if b == [] {
      assert a + b == a;
    } else {
      var n := |b| - 1;
      TotalAdds(a, b[..n]);
      assert (a + b)[..|a + b| - 1] == a + b[..n];
    }
  }

  /** Of two lists the non-blank numbers of the first come first; of one number, itself unless it is blank. */
  lemma {:induction false} NonBlankJoins(a: seq<Str>, b: seq<Str>)
    ensures NonBlank(a + b) == NonBlank(a) + NonBlank(b)
    ensures |a| == 1 ==> NonBlank(a) == if a[0] == "" then [] else a
    decreases |b|
  {
    assert |a| == 1 ==> a[..0] == [] && a == [a[0]];
    if b == [] {
      assert a + b == a;
    } else {
      var n := |b| - 1;
      NonBlankJoins(a, b[..n]);
      assert (a + b)[..|a + b| - 1] == a + b[..n];
    }
  }

  /** Trimming a list of people trims each name, address and number where it stands. */
  lemma TrimmedFields(people: seq<Person>, k: nat)
    requires k < |people|
    ensures TrimAll(people)[k].firstName == TrimSpace(people[k].firstName)
    ensures TrimAll(people)[k].lastName == TrimSpace(people[k].lastName)
    ensures |TrimAll(people)[k].emails| == |people[k].emails| && |TrimAll(people)[k].phones| == |people[k].phones|
    ensures forall j :: 0 <= j < |people[k].emails| ==> TrimAll(people)[k].emails[j] == TrimSpace(people[k].emails[j])
    ensures forall j :: 0 <= j < |people[k].phones| ==> TrimAll(people)[k].phones[j] == TrimSpace(people[k].phones[j])
  {
  }

  /** Accepted exactly when there are 1 to 100 people, all addressable, with at most 100 addresses between them. */
  lemma AcceptedIff(people: seq<Person>)
    ensures Problem(people).None? <==>
      && 1 <= |people| <= 100 && TotalEmails(people) <= 100
      && forall p :: p in people ==> Addressable(p)
  {
    PeopleFine(people);
  }

  lemma {:induction false} NonBlankMembers(items: seq<Str>)
    ensures forall x :: x in NonBlank(items) <==> x != "" && x in items
  {
    if items != [] {
      NonBlankMembers(items[..|items| - 1]);
      assert items == items[..|items| - 1] + [items[|items| - 1]];
    }
  }

  lemma {:induction false} NonBlankFixed(items: seq<Str>)
    requires "" !in items
    ensures NonBlank(items) == items
  {
    if items != [] {
      NonBlankFixed(items[..|items| - 1]);
      assert items == items[..|items| - 1] + [items[|items| - 1]];
    }
  }

  /** What is sent for a person is trimmed already, and would be sent again as it is. */
  lemma SentStays(p: Person)
    ensures TrimPerson(Send(TrimPerson(p))) == Send(TrimPerson(p))
    ensures Send(Send(p)) == Send(p)
  {
    TrimSpaceIdempotent(p.firstName);
    TrimSpaceIdempotent(p.lastName);
    TrimmedStays(p.emails, Trimmed(p.emails));
    NonBlankMembers(Trimmed(p.phones));
    TrimmedStays(p.phones, NonBlank(Trimmed(p.phones)));
    NonBlankMembers(p.phones);
    NonBlankFixed(NonBlank(p.phones));
  }

  lemma {:induction false} TotalSent(people: seq<Person>)
    ensures TotalEmails(SendAll(people)) == TotalEmails(people)
  {
    if people != [] {
      var n := |people| - 1;
      assert SendAll(people)[..n] == SendAll(people[..n]);
      TotalSent(people[..n]);
    }
  }

  lemma SentListStays(people: seq<Person>)
    ensures var sent := SendAll(TrimAll(people)); TrimAll(sent) == sent && SendAll(sent) == sent
  {
    var sent := SendAll(TrimAll(people));
    forall i | 0 <= i < |people|
      ensures TrimAll(sent)[i] == sent[i] && SendAll(sent)[i] == sent[i]
    {
      SentStays(people[i]);
      SentStays(TrimPerson(people[i]));
    }
  }

  /** Dropping blank phone numbers does not change what is accepted. */
  lemma SentAccepted(people: seq<Person>)
    ensures Problem(SendAll(people)).None? <==> Problem(people).None?
  {
    AcceptedIff(people);
    AcceptedIff(SendAll(people));
    TotalSent(people);
    SameAddressable(people);
  }

  /** The list that is sent would be accepted, and sent again as it is. */
  lemma AcceptedAgain(people: seq<Person>)
    ensures var sent := SendAll(TrimAll(people));
            && SendAll(TrimAll(sent)) == sent
            && (Problem(TrimAll(sent)).None? <==> Problem(TrimAll(people)).None?)
  {
    SentListStays(people);
    SentAccepted(TrimAll(people));
  }

  lemma SameAddressable(people: seq<Person>)
    ensures (forall p :: p in people ==> Addressable(p)) <==> (forall p :: p in SendAll(people) ==> Addressable(p))
  {
    forall i | 0 <= i < |people|
      ensures Addressable(SendAll(people)[i]) <==> Addressable(people[i])
    {
    }
    assert forall i :: 0 <= i < |people| ==> people[i] in people && SendAll(people)[i] in SendAll(people);
  }

  /** Everyone has an address of their own to be counted. */
  lemma {:induction false} PeopleAtMostEmails(people: seq<Person>)
    requires forall p :: p in people ==> Addressable(p)
    ensures |people| <= TotalEmails(people)
  {
    if people != [] {
      assert people[|people| - 1] in people;
      PeopleAtMostEmails(people[..|people| - 1]);
    }
  }

  // ----- the handler -----

  /** An invitation as it arrives; its addresses live in an array that others may share. */
  datatype Invitation = Invitation(firstName: Str, lastName: Str, email: array<Str>, phone: seq<Str>)

  function ValueOf(inv: Invitation): Person
    reads inv.email
  {
    Person(inv.firstName, inv.lastName, inv.email[..], inv.phone)
  }

  /** Some of the addresses have been trimmed, the others are as they were. */
  ghost predicate PartlyTrimmed(a: array<Str>, was: seq<Str>)
    reads a
  {
    a.Length == |was| && forall j :: 0 <= j < |was| ==> a[j] == was[j] || a[j] == Trimmed(was)[j]
  }

  lemma TrimEither(x: Str, was: seq<Str>, j: nat)
    requires j < |was| && (x == was[j] || x == Trimmed(was)[j])
    ensures TrimSpace(x) == Trimmed(was)[j]
  {
    TrimSpaceIdempotent(was[j]);
  }

  lemma EmailsNext(emails: seq<Str>, i: nat, j: nat)
    requires j < |emails| && EmailsProblem(emails[..j], i).None?
    ensures EmailsProblem(emails[..j + 1], i) == EmailProblem(emails[j], i, j)
  {
    assert emails[..j + 1][..j] == emails[..j];
  }

  lemma {:induction false} EmailsFirst(emails: seq<Str>, i: nat, j: nat)
    requires j <= |emails| && EmailsProblem(emails[..j], i).Some?
    ensures EmailsProblem(emails, i) == EmailsProblem(emails[..j], i)
  {
    if j == |emails| {
      assert emails[..j] == emails;
    } else {
      var init := emails[..|emails| - 1];
      assert init[..j] == emails[..j];
      EmailsFirst(init, i, j);
    }
  }

  /** The loop over one person's addresses: each is trimmed in place, up to the first that is refused. */
  method TrimEmails(a: array<Str>, i: nat, ghost was: seq<Str>) returns (problem: Option<Error>)
    requires PartlyTrimmed(a, was)
    modifies a
    ensures PartlyTrimmed(a, was)
    ensures problem == EmailsProblem(Trimmed(was), i)
    ensures problem.None? || old(a[..]) == Trimmed(was) ==> a[..] == Trimmed(was)
  {
    ghost var trimmed := Trimmed(was);
    for j := 0 to a.Length
      invariant PartlyTrimmed(a, was)
      invariant forall k :: 0 <= k < j ==> a[k] == trimmed[k]
      invariant old(a[..]) == trimmed ==> a[..] == trimmed
      invariant EmailsProblem(trimmed[..j], i).None?
    {
      TrimEither(a[j], was, j);
      EmailsNext(trimmed, i, j);
      var e := TrimSpace(a[j]);
      problem := EmailProblem(e, i, j);
      if problem.Some? {
        EmailsFirst(trimmed, i, j + 1);
        return;
      }
      a[j] := e;
    }
    assert trimmed[..a.Length] == trimmed;
    problem := None;
  }

  lemma NonBlankNext(items: seq<Str>, k: nat)
    requires k < |items|
    ensures NonBlank(items[..k + 1]) ==
            if items[k] != "" then NonBlank(items[..k]) + [items[k]] else NonBlank(items[..k])
  {
    assert items[..k + 1][..k] == items[..k];
  }

  /** The loop over one person's phone numbers. */
  method CleanPhones(phone: seq<Str>) returns (phones: seq<Str>)
    ensures phones == NonBlank(Trimmed(phone))
  {
    ghost var trimmed := Trimmed(phone);
    phones := [];
    for k := 0 to |phone|
      invariant phones == NonBlank(trimmed[..k])
    {
      NonBlankNext(trimmed, k);
      var p := TrimSpace(phone[k]);
      if p != "" {
        phones := phones + [p];
      }
    }
    assert trimmed[..|phone|] == trimmed;
  }

  lemma PeopleNext(people: seq<Person>, i: nat)
    requires i < |people| && PeopleProblem(people[..i]).None?
    ensures PeopleProblem(people[..i + 1]) == PersonProblem(people[i], i)
    ensures TotalEmails(people[..i + 1]) == TotalEmails(people[..i]) + |people[i].emails|
  {
    assert people[..i + 1][..i] == people[..i];
  }

  lemma {:induction false} PeopleFirst(people: seq<Person>, i: nat)
    requires i <= |people| && PeopleProblem(people[..i]).Some?
    ensures PeopleProblem(people) == PeopleProblem(people[..i])
  {
    if i == |people| {
      assert people[..i] == people;
    } else {
      var init := people[..|people| - 1];
      assert init[..i] == people[..i];
      PeopleFirst(init, i);
    }
  }

  /** One round of the loop over people. */
  method NormalizePerson(inv: Invitation, i: nat, ghost was: Person) returns (r: Result<Invitation>)
    requires inv.firstName == was.firstName && inv.lastName == was.lastName && inv.phone == was.phones
    requires PartlyTrimmed(inv.email, was.emails)
    modifies inv.email
    ensures PartlyTrimmed(inv.email, was.emails)
    ensures var problem := PersonProblem(TrimPerson(was), i); if problem.Some? then r == Err(problem.value) else r.Ok?
    ensures r.Ok? ==> r.value.email == inv.email && ValueOf(r.value) == Send(TrimPerson(was))
    ensures r.Ok? || old(inv.email[..]) == Trimmed(was.emails) ==> inv.email[..] == Trimmed(was.emails)
  {
    var firstName, lastName := TrimSpace(inv.firstName), TrimSpace(inv.lastName);
    if firstName == "" {
      return Err(FirstNameRequired(i));
    }
    if inv.email.Length == 0 {
      return Err(EmailRequired(i));
    }
    var problem := TrimEmails(inv.email, i, was.emails);
    if problem.Some? {
      return Err(problem.value);
    }
    var phones := CleanPhones(inv.phone);
    return Ok(Invitation(firstName, lastName, inv.email, phones));
  }

  function Values(input: seq<Invitation>): (r: seq<Person>)
    reads set inv | inv in input :: inv.email
    ensures |r| == |input|
    ensures forall i :: 0 <= i < |input| ==> r[i] == ValueOf(input[i])
  {
    if input == [] then [] else Values(input[..|input| - 1]) + [ValueOf(input[|input| - 1])]
  }

  /** The list part way through: `was` is what it was at the start, and shared arrays were the same there. */
  ghost predicate InProgress(input: seq<Invitation>, was: seq<Person>)
    reads set inv | inv in input :: inv.email
  {
    && |was| == |input|
    && (forall k :: 0 <= k < |input| ==>
          input[k].firstName == was[k].firstName && input[k].lastName == was[k].lastName &&
          input[k].phone == was[k].phones)
    && (forall k :: 0 <= k < |input| ==> PartlyTrimmed(input[k].email, was[k].emails))
    && (forall k, l :: 0 <= k < |input| && 0 <= l < |input| && input[k].email == input[l].email ==>
          was[k].emails == was[l].emails)
  }

  /** The first `n` invitations have been normalised into `done`. */
  ghost predicate DoneUpTo(input: seq<Invitation>, was: seq<Person>, done: seq<Invitation>, n: nat)
    reads set inv | inv in input :: inv.email
    reads set inv | inv in done :: inv.email
  {
    && n <= |input| == |was| && |done| == n
    && (forall k :: 0 <= k < n ==> done[k].email == input[k].email && input[k].email[..] == Trimmed(was[k].emails))
    && (forall k :: 0 <= k < n ==> ValueOf(done[k]) == Send(TrimPerson(was[k])))
  }

  /** Normalise the invitation at `n`, which leaves those before it as they are even where they share its array. */
  method NormalizeNth(input: seq<Invitation>, n: nat, ghost was: seq<Person>, ghost done: seq<Invitation>)
    returns (r: Result<Invitation>)
    requires n < |input| && InProgress(input, was) && DoneUpTo(input, was, done, n)
    modifies input[n].email
    ensures InProgress(input, was)
    ensures var problem := PersonProblem(TrimPerson(was[n]), n);
            if problem.Some? then r == Err(problem.value) else r.Ok?
    ensures r.Ok? ==> DoneUpTo(input, was, done + [r.value], n + 1) && r.value.email.Length == |was[n].emails|
  {
    r := NormalizePerson(input[n], n, was[n]);
    assert forall k :: 0 <= k < |input| && input[k].email != input[n].email ==>
      input[k].email[..] == old(input[k].email[..]);
    assert forall k :: 0 <= k < n && input[k].email == input[n].email ==> input[k].email[..] == Trimmed(was[k].emails);
  }

  lemma AllDone(input: seq<Invitation>, was: seq<Person>, done: seq<Invitation>)
    requires DoneUpTo(input, was, done, |input|)
    ensures Values(done) == SendAll(TrimAll(was))
  {
  }

  lemma AtStart(input: seq<Invitation>)
    ensures InProgress(input, Values(input)) && DoneUpTo(input, Values(input), [], 0)
  {
  }

  /** The loop over people, with the count of their addresses. */
  method NormalizeEach(input: seq<Invitation>, ghost was: seq<Person>)
    returns (r: Result<seq<Invitation>>, emailCount: nat)
    requires InProgress(input, was) && DoneUpTo(input, was, [], 0)
    modifies set inv | inv in input :: inv.email
    ensures InProgress(input, was)
    ensures var problem := PeopleProblem(TrimAll(was)); if problem.Some? then r == Err(problem.value) else r.Ok?
    ensures r.Ok? ==> DoneUpTo(input, was, r.value, |input|) && emailCount == TotalEmails(TrimAll(was))
  {
    ghost var people := TrimAll(was);
    var invitations: seq<Invitation> := [];
    emailCount := 0;
    for i := 0 to |input|
      invariant InProgress(input, was) && DoneUpTo(input, was, invitations, i)
      invariant PeopleProblem(people[..i]).None? && emailCount == TotalEmails(people[..i])
    {
      PeopleNext(people, i);
      var next := NormalizeNth(input, i, was, invitations);
      if next.Err? {
        PeopleFirst(people, i + 1);
        return Err(next.error), emailCount;
      }
      emailCount := emailCount + next.value.email.Length;
      invitations := invitations + [next.value];
    }
    assert people[..|input|] == people;
    r := Ok(invitations);
  }

  /** The invitation that is sent for a person. */
  ghost predicate SentFor(inv: Invitation, was: Person)
    reads inv.email
  {
    && inv.firstName == TrimSpace(was.firstName) && inv.lastName == TrimSpace(was.lastName)
    && inv.email.Length == |was.emails|
    && (forall j :: 0 <= j < |was.emails| ==> inv.email[j] == TrimSpace(was.emails[j]))
    && inv.phone == NonBlank(Trimmed(was.phones))
  }

  lemma SentForIt(inv: Invitation, was: Person)
    requires ValueOf(inv) == Send(TrimPerson(was))
    ensures SentFor(inv, was)
  {
    assert inv.email[..] == Trimmed(was.emails);
    assert forall j :: 0 <= j < |was.emails| ==> inv.email[..][j] == inv.email[j];
  }

  /**
   invite_users up to the API call. Accepted people are sent in order, one for one; a refusal may leave
   some of the addresses trimmed. Sharing between the address lists makes no difference.
   */
  method InviteUsers(input: seq<Invitation>) returns (r: Result<seq<Invitation>>)
    modifies set inv | inv in input :: inv.email
    ensures var problem := Problem(TrimAll(old(Values(input))));
            if problem.Some? then r == Err(problem.value) else r.Ok?
    ensures r.Ok? ==> Values(r.value) == SendAll(TrimAll(old(Values(input))))
    ensures r.Ok? ==> DoneUpTo(input, old(Values(input)), r.value, |input|)
    ensures InProgress(input, old(Values(input)))
    ensures r.Ok? ==>
      |r.value| == |input| && forall k :: 0 <= k < |input| ==> SentFor(r.value[k], old(Values(input))[k])
    ensures r.Ok? ==> var people := TrimAll(old(Values(input)));
                      1 <= |people| <= 100 && TotalEmails(people) <= 100 && forall p :: p in people ==> Addressable(p)
    ensures r.Err? ==> Refuses(TrimAll(old(Values(input))), r.error)
  {
    AtStart(input);
    ghost var was := Values(input);
    RefusedFor(TrimAll(was));
    AcceptedIff(TrimAll(was));
    if |input| == 0 {
      return Err(NoInvitations);
    }
    if |input| > MAX_PER_REQUEST {
      return Err(TooManyPeople);
    }
    var emailCount;
    r, emailCount := NormalizeEach(input, was);
    if r.Ok? {
      AllDone(input, was, r.value);
      forall k | 0 <= k < |input|
        ensures SentFor(r.value[k], was[k])
      {
        SentForIt(r.value[k], was[k]);
      }
      if emailCount > MAX_PER_REQUEST {
        return Err(TooManyEmails);
      }
    }
  }
}
