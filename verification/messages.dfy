/**
 * The events the store fans out to connections, and how each is rendered
 * as a line of text for one particular receiver.
 */
module Messages {
  import opened Wrappers
  import opened Persons

  datatype Message =
    | Arrive(id: PersonId, name: string, loc: RoomId)
    /** A departure: who left, under which name, and from which room */
    | Depart(id: PersonId, name: string, loc: RoomId)
    /** The notice sent to a person being logged out */
    | Logout
    /** Speech: the speaker's id and name, the room, and the text spoken */
    | Say(speaker: PersonId, speakerName: string, loc: RoomId, text: string)

  /** The person a message is about, if any: the one arriving, departing or speaking. */
  function Subject(m: Message): (r: Option<PersonId>)
    ensures r.None? <==> m.Logout?
  {
    match m
    case Arrive(id, _, _) => Some(id)
    case Depart(id, _, _) => Some(id)
    case Logout => None
    case Say(speaker, _, _, _) => Some(speaker)
  }

  /** The text `receiver` sees for `m`. Nobody is told of their own arrival or departure. */
  function Render(m: Message, receiver: PersonId): (r: string)
    ensures r == "" <==> (m.Arrive? || m.Depart?) && m.id == receiver
  {
    match m
    case Arrive(id, name, _) => if id == receiver then "" else name + " arrived."
    case Depart(id, name, _) => if id == receiver then "" else name + " left."
    case Logout => "You have logged out."
    case Say(speaker, speakerName, _, text) =>
      if speaker == receiver then "You say, '" + text + "'"
      else speakerName + " says, '" + text + "'"
  }

  /** An arrival or departure renders to nothing exactly for the person it is about. */
  lemma SelfSuppressed(m: Message, receiver: PersonId)
    requires m.Arrive? || m.Depart?
    ensures Render(m, receiver) == "" <==> receiver == m.id
  {
  }

  /** Everyone else is told the name, followed by what happened. */
  lemma AnnouncesName(m: Message, receiver: PersonId)
    requires m.Arrive? || m.Depart?
    requires receiver != m.id
    ensures var s := Render(m, receiver);
      var tail := if m.Arrive? then " arrived." else " left.";
      |s| == |m.name| + |tail| && s[..|m.name|] == m.name && s[|m.name|..] == tail
  {
  }

  /** To anyone but its subject, an arrival never reads like a departure. */
  lemma ArriveDistinctFromDepart(id: PersonId, name: string, loc: RoomId, receiver: PersonId)
    requires receiver != id
    ensures Render(Arrive(id, name, loc), receiver) != Render(Depart(id, name, loc), receiver)
  {
    var a, d := Render(Arrive(id, name, loc), receiver), Render(Depart(id, name, loc), receiver);
    assert |a| != |d|;
  }

  /** A logout reads the same to every receiver. */
  lemma LogoutUniform(r1: PersonId, r2: PersonId)
    ensures Render(Logout, r1) == Render(Logout, r2) == "You have logged out."
  {
  }

  /** The speaker is addressed as "You"; every other receiver sees the speaker's name. */
  lemma SayPrefix(m: Message, receiver: PersonId)
    requires m.Say?
    ensures var s := Render(m, receiver);
      if receiver == m.speaker then
        |s| >= 10 && s[..10] == "You say, '"
      else
        |s| >= |m.speakerName| + 8 && s[..|m.speakerName|] == m.speakerName
        && s[|m.speakerName|..|m.speakerName| + 8] == " says, '"
  {
  }

  /** Whoever receives it, a Say renders to the spoken text in quotes at the end. */
  lemma SayEndsWithText(m: Message, receiver: PersonId)
    requires m.Say?
    ensures var s := Render(m, receiver);
      |s| > |m.text| && s[|s| - |m.text| - 1..] == m.text + "'"
  {
  }

  /** The rendering determines the spoken text: different texts never render alike. */
  lemma {:induction false} SayTextDetermined(speaker: PersonId, name: string, loc: RoomId, t1: string, t2: string, receiver: PersonId)
    requires Render(Say(speaker, name, loc, t1), receiver) == Render(Say(speaker, name, loc, t2), receiver)
    ensures t1 == t2
  {
    var s1, s2 := Render(Say(speaker, name, loc, t1), receiver), Render(Say(speaker, name, loc, t2), receiver);
    var head := if speaker == receiver then "You say, '" else name + " says, '";
    assert s1 == head + t1 + "'" && s2 == head + t2 + "'";
    assert |t1| == |t2|;
    assert t1 == s1[|head|..|head| + |t1|];
    assert t2 == s2[|head|..|head| + |t2|];
  }

  /** The room a message was sent in never shows in its text. */
  lemma LocIrrelevant(m: Message, loc: RoomId, receiver: PersonId)
    requires !m.Logout?
    ensures Render(m.(loc := loc), receiver) == Render(m, receiver)
  {
  }

  /** All receivers other than the subject see the same text. */
  lemma SameForOthers(m: Message, r1: PersonId, r2: PersonId)
    requires Subject(m).Some? ==> r1 != Subject(m).value && r2 != Subject(m).value
    ensures Render(m, r1) == Render(m, r2)
  {
  }
}
