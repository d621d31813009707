/** The message record of the library (class Sendloop\MTA\Message): seven
    string properties that setters overwrite in place and getters return. */
module SendloopMessage {
  import opened Php
  import opened Exceptions

  const FromRequiredMessage: string := "fromName and fromEmail can't be empty"

  class Message {
    var fromName: Value
    var fromEmail: Value
    var replyToName: Value
    var replyToEmail: Value
    var subject: Value
    var text: Value
    var html: Value

    /** Every property starts as the empty string. */
    constructor ()
      ensures fromName == Str("") && fromEmail == Str("")
      ensures replyToName == Str("") && replyToEmail == Str("")
      ensures subject == Str("") && text == Str("") && html == Str("")
    {
      fromName, fromEmail := Str(""), Str("");
      replyToName, replyToEmail := Str(""), Str("");
      subject, text, html := Str(""), Str(""), Str("");
    }

    /** Fails, changing nothing, when either argument is empty in PHP's
        sense; otherwise stores both. */
    method SetFrom(name: Value := Null, email: Value := Null) returns (r: Outcome)
      modifies this`fromName, this`fromEmail
      ensures r.Fail? <==> Empty(name) || Empty(email)
      ensures r.Fail? ==> r.error == InvalidArgument(FromRequiredMessage)
      ensures r.Fail? ==> fromName == old(fromName) && fromEmail == old(fromEmail)
      ensures r.Pass? ==> fromName == name && fromEmail == email
    {
      if Empty(name) || Empty(email) {
        return Fail(InvalidArgument(FromRequiredMessage));
      }
      fromName := name;
      fromEmail := email;
      r := Pass;
    }

    method GetFrom() returns (name: Value, email: Value)
      ensures name == fromName && email == fromEmail
    {
      name, email := fromName, fromEmail;
    }

    /** Stores both arguments as given: null and empty values included. */
    method SetReplyTo(name: Value := Null, email: Value := Null)
      modifies this`replyToName, this`replyToEmail
      ensures replyToName == name && replyToEmail == email
    {
      replyToName := name;
      replyToEmail := email;
    }

    method GetReplyTo() returns (name: Value, email: Value)
      ensures name == replyToName && email == replyToEmail
    {
      name, email := replyToName, replyToEmail;
    }

    method SetTextContent(t: Value := Str(""))
      modifies this`text
      ensures text == t
    {
      text := t;
    }

    method GetTextContent() returns (t: Value)
      ensures t == text
    {
      t := text;
    }

    method SetHTMLContent(h: Value := Str(""))
      modifies this`html
      ensures html == h
    {
      html := h;
    }

    method GetHTMLContent() returns (h: Value)
      ensures h == html
    {
      h := html;
    }

    method SetSubject(s: Value := Str(""))
      modifies this`subject
      ensures subject == s
    {
      subject := s;
    }

    method GetSubject() returns (s: Value)
      ensures s == subject
    {
      s := subject;
    }
  }

  /** A caller's view of the setters, proved from their contracts alone:
      a second call overwrites the first, every setter leaves the other
      properties alone, and a rejected setFrom keeps the earlier sender. */
  method SettersLastWriteWins(m: Message, n1: Value, e1: Value, n2: Value, e2: Value, s1: Value, s2: Value)
    modifies m
    ensures m.replyToName == n2 && m.replyToEmail == e2
    ensures m.subject == s2 && m.text == s1 && m.html == s2
    ensures m.fromName == old(m.fromName) && m.fromEmail == old(m.fromEmail)
  {
    m.SetReplyTo(n1, e1);
    m.SetReplyTo(n2, e2);
    m.SetSubject(s1);
    m.SetSubject(s2);
    m.SetTextContent(s2);
    m.SetTextContent(s1);
    m.SetHTMLContent(s1);
    m.SetHTMLContent(s2);
  }

  /** Two accepted setFrom calls leave the second sender; a rejected second
      call leaves the first. */
  method SetFromTwice(m: Message, n1: Value, e1: Value, n2: Value, e2: Value)
    requires !Empty(n1) && !Empty(e1)
    modifies m
    ensures Empty(n2) || Empty(e2) ==> m.fromName == n1 && m.fromEmail == e1
    ensures !Empty(n2) && !Empty(e2) ==> m.fromName == n2 && m.fromEmail == e2
    ensures m.replyToName == old(m.replyToName) && m.replyToEmail == old(m.replyToEmail)
    ensures m.subject == old(m.subject) && m.text == old(m.text) && m.html == old(m.html)
  {
    var r1 := m.SetFrom(n1, e1);
    var r2 := m.SetFrom(n2, e2);
  }

  /** Called with no arguments, setFrom always fails and keeps the sender,
      while the other setters reset their properties: the reply-to pair to
      null, the contents and subject to the empty string. */
  method DefaultArguments(m: Message) returns (r: Outcome)
    modifies m
    ensures r == Fail(InvalidArgument(FromRequiredMessage))
    ensures m.fromName == old(m.fromName) && m.fromEmail == old(m.fromEmail)
    ensures m.replyToName == Null && m.replyToEmail == Null
    ensures m.text == Str("") && m.html == Str("") && m.subject == Str("")
  {
    r := m.SetFrom();
    m.SetReplyTo();
    m.SetTextContent();
    m.SetHTMLContent();
    m.SetSubject();
  }
}
