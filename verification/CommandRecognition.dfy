/**
 Which updates are commands, and which requests the endpoint inserts, said of the
 message and its words (app/services/telegram_command_listener.py and
 app/api/routes/telegram_commands.py).
 */
module CommandRecognition {
  import opened Prelude
  import opened SummaryOutput
  import opened CommandIntake

  // ----------------------------------------------------------------- words

  predicate Solid(s: string) {
    forall c <- s :: !IsSpace(c)
  }

  lemma {:induction false} WordOfSolid(w: string, rest: string)
    requires Solid(w) && (rest == "" || IsSpace(rest[0]))
    ensures Word(w + rest) == w
  {
    if w == "" {
      assert w + rest == rest;
    } else {
      assert (w + rest)[1..] == w[1..] + rest;
      assert Solid(w[1..]) by {
        forall c | c in w[1..]
          ensures !IsSpace(c)
        {
          assert c in w;
        }
      }
      WordOfSolid(w[1..], rest);
      assert w == [w[0]] + w[1..];
    }
  }

  /** Splitting is fixed by three laws: space at the front does not matter; a word
      is what stands before a space or the end; nothing is left of nothing. */
  lemma WordsLaws(w: string, space: char, rest: string)
    requires IsSpace(space)
    ensures Words("") == []
    ensures Words([space] + rest) == Words(rest)
    ensures w != "" && Solid(w) ==> Words(w) == [w] && Words(w + ([space] + rest)) == [w] + Words(rest)
  {
    assert ([space] + rest)[1..] == rest;
    if w != "" && Solid(w) {
      WordOfSolid(w, "");
      assert w + "" == w;
      assert w[0] in w;
      assert w[|w|..] == "";
      var text := w + ([space] + rest);
      WordOfSolid(w, [space] + rest);
      assert text[|w|..] == [space] + rest;
      assert text[0] == w[0];
    }
  }

  lemma {:induction false} FirstWord(s: string)
    ensures Words(s) != [] ==> LStrip(s) != "" && Words(s)[0] == Word(LStrip(s)) && Words(s)[0] != ""
    decreases |s|
  {
    if s != "" && IsSpace(s[0]) {
      FirstWord(s[1..]);
    }
  }

  // -------------------------------------------------------------- commands

  lemma {:induction false} MentionOf(token: string)
    ensures var (name, bot) := Mentioned(token);
      && '@' !in name
      && token == (if bot.Some? then name + ("@" + bot.value) else name)
  {
    if token != "" && token[0] != '@' {
      MentionOf(token[1..]);
      var (name, bot) := Mentioned(token[1..]);
      assert token == [token[0]] + token[1..];
      if bot.Some? {
        assert [token[0]] + (name + ("@" + bot.value)) == ([token[0]] + name) + ("@" + bot.value);
      }
    }
  }

  lemma {:induction false} MentionOfSum(name: string, bot: string)
    requires '@' !in name
    ensures Mentioned(name) == (name, None) && Mentioned(name + ("@" + bot)) == (name, Some(bot))
  {
    if name != "" {
      MentionOfSum(name[1..], bot);
      assert name[0] in name && name == [name[0]] + name[1..];
      assert (name + ("@" + bot))[1..] == name[1..] + ("@" + bot);
    } else {
      assert name + ("@" + bot) == "@" + bot;
      assert ("@" + bot)[1..] == bot;
    }
  }

  /** The command's word, addressed to this bot or to none. */
  ghost predicate Addressed(c: Config, token: string) {
    token == "/summary" || exists bot :: token == "/summary" + ("@" + bot) && Lower(bot) == c.botUsername
  }

  lemma AddressedIff(c: Config, token: string)
    ensures ConfiguredToken(c, token) <==> Addressed(c, token)
  {
    MentionOf(token);
    MentionOfSum("/summary", "");
    if Addressed(c, token) && token != "/summary" {
      var bot :| token == "/summary" + ("@" + bot) && Lower(bot) == c.botUsername;
      MentionOfSum("/summary", bot);
    }
  }

  /** The endpoint also takes the word with any other bot's name. */
  lemma SummaryCommandIff(text: string)
    ensures SummaryCommand(text) <==>
      && Words(text) != []
      && (Words(text)[0] == "/summary" || exists bot :: Words(text)[0] == "/summary" + ("@" + bot))
  {
    if Words(text) != [] {
      var token := Words(text)[0];
      MentionOf(token);
      MentionOfSum("/summary", "");
      if bot :| token == "/summary" + ("@" + bot) {
        MentionOfSum("/summary", bot);
      }
    }
  }

  /** An update is a command exactly if it is a plain message of the configured
      user in the configured private chat, neither forwarded nor sent for a
      channel, whose first word is the command addressed to this bot or to none. */
  lemma CommandIff(c: Config, u: Update)
    ensures IsCommand(c, u) <==>
      && u.message.Some?
      && var m := u.message.value;
         && m.chatType == "private"
         && m.chatId == c.chatId
         && m.senderId == c.userId
         && !m.senderChat
         && !m.forwarded
         && m.messageId.Some?
         && m.text.Some?
         && Words(m.text.value) != []
         && Addressed(c, Words(m.text.value)[0])
    ensures IsCommand(c, u) ==> var m := u.message.value;
      CommandPayload(c, u) == Some(Payload(u.id, c.chatId, c.userId, m.messageId.value, m.text.value))
  {
    if u.message.Some? && u.message.value.text.Some? && Words(u.message.value.text.value) != [] {
      var text := u.message.value.text.value;
      AddressedIff(c, Words(text)[0]);
      FirstWord(text);
      if Addressed(c, Words(text)[0]) {
        assert Words(text)[0][0] == '/';
        assert Word(LStrip(text))[0] == LStrip(text)[0];
      }
    }
    hide Addressed, ConfiguredToken, Words, Word, LStrip;
  }

  // -------------------------------------------------------------- endpoint

  predicate TextFits(p: Payload) {
    1 <= |p.text| <= 4096
  }

  /** What the table must say about a row that was made for this payload. */
  predicate Matches(row: Row, p: Payload) {
    && row.chatId == p.chatId
    && row.userId == p.userId
    && row.messageId == p.messageId
    && SummaryCommand(p.text)
    && row.url == (if |Words(p.text)| < 2 then None
                   else if |Words(p.text)[1]| <= 4096 then Some(Words(p.text)[1])
                   else Some(Words(p.text)[1][..4096]))
  }

  lemma SubmittedUrlIs(text: string)
    ensures SubmittedUrl(text) == (if |Words(text)| < 2 then None
                                   else if |Words(text)[1]| <= 4096 then Some(Words(text)[1])
                                   else Some(Words(text)[1][..4096]))
  {
    var words := Words(text);
    if |words| >= 2 && |words[1]| <= 4096 {
      assert words[1][..|words[1]|] == words[1];
    }
    hide Words;
  }

  /** The endpoint inserts a request exactly if its text fits, commands are
      enabled, its update has no row yet, it comes from the configured user and
      chat, and it is a command; every other request has its own answer, an update
      with a row always that it is a duplicate. */
  lemma LookUpIff(c: Config, rows: seq<Row>, p: Payload)
    ensures var stage := LookUp(c, rows, p);
      var known := HasRow(rows, p.updateId);
      var ours := p.chatId == c.chatId && p.userId == c.userId;
      && (stage.Inserting? <==> TextFits(p) && c.enabled && !known && ours && SummaryCommand(p.text))
      && (stage == Done(Refused(422)) <==>
            !TextFits(p) || (c.enabled && !known && ours && !SummaryCommand(p.text)))
      && (stage == Done(Refused(409)) <==> TextFits(p) && !c.enabled)
      && (stage == Done(Refused(403)) <==> TextFits(p) && c.enabled && !known && !ours)
      && (stage.Done? && stage.response.Accepted? <==> TextFits(p) && c.enabled && known)
      && (stage.Done? && stage.response.Accepted? ==>
            stage.response == Accepted(true, !Matches(RowFor(rows, p.updateId), p)))
      && (stage.Inserting? ==>
            && Matches(stage.row, p)
            && stage.row.updateId == p.updateId
            && stage.row.videoId == c.parse(p.text)
            && (stage.row.rejected <==> c.parse(p.text).None?))
  {
    SubmittedUrlIs(p.text);
    hide Words, Mentioned, RowFor, SubmittedUrl;
  }
}
