/**
 * What the login negotiation guarantees, stated over `Negotiate` for every
 * script of replies: which requests it sends, when it ends in a session,
 * which error it returns otherwise, and what it never depends on.
 */
module LoginProperties {
  import opened Wrappers
  import opened Html
  import opened UrlValues
  import opened Redirects
  import opened Forms
  import opened CarunaApi

  /** Every reply with an index in [i, j) lets the flow go on. */
  ghost predicate AcceptedBetween(replies: seq<Reply>, i: nat, j: nat)
    decreases j - i
  {
    i >= j || (ReplyAccepted(i, ReplyTo(replies, i)) && AcceptedBetween(replies, i + 1, j))
  }

  /** `AcceptedBetween` holds exactly when each reply in the range is accepted. */
  lemma {:induction false} AcceptedBetweenEach(replies: seq<Reply>, i: nat, j: nat)
    ensures AcceptedBetween(replies, i, j) <==>
      forall k :: i <= k < j ==> ReplyAccepted(k, ReplyTo(replies, k))
    decreases j - i
  {
    if i < j {
      AcceptedBetweenEach(replies, i + 1, j);
    }
  }

  /**
   * The rest of a run from any stage ends in a session exactly when every
   * remaining reply is accepted; it then sent one request per remaining
   * stage and the session is the token reply's.
   */
  lemma {:induction false} RunFromSucceedsIff(username: string, password: string, replies: seq<Reply>,
                                              sentBefore: seq<Request>, stage: Stage)
    ensures var run := RunFrom(username, password, replies, sentBefore, stage);
      run.outcome.LoggedIn? <==> AcceptedBetween(replies, StageIndex(stage), 8)
    ensures var run := RunFrom(username, password, replies, sentBefore, stage);
      run.outcome.LoggedIn? ==>
        |run.sent| == |sentBefore| + 8 - StageIndex(stage) &&
        run.outcome.info == ReplyTo(replies, 7).body.info
    decreases 8 - StageIndex(stage)
  {
    var i := StageIndex(stage);
    var r := ReplyTo(replies, i);
    var sent := sentBefore + [RequestOf(stage)];
    AdvanceVerdict(username, password, stage, r);
    var step := Advance(username, password, stage, r);
    if step.Next? {
      RunFromSucceedsIff(username, password, replies, sent, step.stage);
      assert ReplyAccepted(i, r);
    } else if !ReplyAccepted(i, r) {
      assert !AcceptedBetween(replies, i, 8);
    }
  }

  /**
   * The first rejected reply decides how the rest of a run fails: when the
   * replies from this stage's up to the j-th are accepted and the j-th is
   * not, the run sends the requests up to the j-th and returns the j-th
   * reply's rejection.
   */
  lemma {:induction false} RunFromFailsAt(username: string, password: string, replies: seq<Reply>,
                                          sentBefore: seq<Request>, stage: Stage, j: nat)
    requires StageIndex(stage) <= j < 8
    requires AcceptedBetween(replies, StageIndex(stage), j)
    requires !ReplyAccepted(j, ReplyTo(replies, j))
    ensures var run := RunFrom(username, password, replies, sentBefore, stage);
      |run.sent| == |sentBefore| + j - StageIndex(stage) + 1 &&
      run.outcome == Failed(Rejection(j, ReplyTo(replies, j)))
    decreases 8 - StageIndex(stage)
  {
    var i := StageIndex(stage);
    var r := ReplyTo(replies, i);
    AdvanceVerdict(username, password, stage, r);
    if i < j {
      assert ReplyAccepted(i, r);
      var step := Advance(username, password, stage, r);
      RunFromFailsAt(username, password, replies, sentBefore + [RequestOf(stage)], step.stage, j);
    }
  }

  /**
   * `Login` stores a session exactly when all eight replies are accepted;
   * it then sent eight requests and the session is the token reply's.
   */
  lemma LoginSucceedsIffEveryReplyAccepted(username: string, password: string, replies: seq<Reply>)
    ensures Negotiate(username, password, replies).outcome.LoggedIn? <==> AcceptedBetween(replies, 0, 8)
    ensures var run := Negotiate(username, password, replies);
      run.outcome.LoggedIn? ==>
        |run.sent| == 8 && run.outcome.info == ReplyTo(replies, 7).body.info
  {
    RunFromSucceedsIff(username, password, replies, [], Authorize);
  }

  /**
   * The first rejected reply decides a failed login: when replies 0..j-1 are
   * accepted and reply j is not, exactly j+1 requests were sent and the
   * error is reply j's rejection; no later reply is consulted.
   */
  lemma LoginFailsAtFirstRejectedReply(username: string, password: string, replies: seq<Reply>, j: nat)
    requires j < 8
    requires AcceptedBetween(replies, 0, j)
    requires !ReplyAccepted(j, ReplyTo(replies, j))
    ensures var run := Negotiate(username, password, replies);
      |run.sent| == j + 1 && run.outcome == Failed(Rejection(j, ReplyTo(replies, j)))
  {
    RunFromFailsAt(username, password, replies, [], Authorize, j);
  }

  /**
   * Every failed login has a first rejected reply, among the eight.
   */
  lemma {:induction false} FirstRejectedReply(replies: seq<Reply>, from: nat)
    requires from <= 8
    requires AcceptedBetween(replies, 0, from)
    requires !AcceptedBetween(replies, 0, 8)
    ensures exists j :: from <= j < 8 && AcceptedBetween(replies, 0, j) && !ReplyAccepted(j, ReplyTo(replies, j))
    decreases 8 - from
  {
    if ReplyAccepted(from, ReplyTo(replies, from)) {
      AcceptedBetweenSplit(replies, 0, from, from + 1);
      FirstRejectedReply(replies, from + 1);
    }
  }

  /**
   * The flow is strictly sequential: it sends between one and eight
   * requests, sends each after the previous reply was accepted, and an
   * error always concerns the reply to the last request sent.
   */
  lemma RequestsWaitForReplies(username: string, password: string, replies: seq<Reply>)
    ensures var run := Negotiate(username, password, replies);
      && 1 <= |run.sent| <= 8
      && AcceptedBetween(replies, 0, |run.sent| - 1)
      && (run.outcome.Failed? ==>
            run.outcome.error == Rejection(|run.sent| - 1, ReplyTo(replies, |run.sent| - 1)))
  {
    LoginSucceedsIffEveryReplyAccepted(username, password, replies);
    if !AcceptedBetween(replies, 0, 8) {
      FirstRejectedReply(replies, 0);
      var j :| 0 <= j < 8 && AcceptedBetween(replies, 0, j) && !ReplyAccepted(j, ReplyTo(replies, j));
      LoginFailsAtFirstRejectedReply(username, password, replies, j);
    }
  }

  /**
   * For the same script of replies, whether the login succeeds, the session
   * it stores, the error it returns and the number of requests it sends do
   * not depend on the credentials: the client's own logic only puts them in
   * the login form. (A real server answers wrong credentials with a
   * different reply, which is a different script.)
   */
  lemma CredentialsDoNotDecideOutcome(username1: string, password1: string,
                                      username2: string, password2: string, replies: seq<Reply>)
    ensures Negotiate(username1, password1, replies).outcome == Negotiate(username2, password2, replies).outcome
    ensures |Negotiate(username1, password1, replies).sent| == |Negotiate(username2, password2, replies).sent|
  {
    LoginSucceedsIffEveryReplyAccepted(username1, password1, replies);
    LoginSucceedsIffEveryReplyAccepted(username2, password2, replies);
    if !AcceptedBetween(replies, 0, 8) {
      FirstRejectedReply(replies, 0);
      var j :| 0 <= j < 8 && AcceptedBetween(replies, 0, j) && !ReplyAccepted(j, ReplyTo(replies, j));
      LoginFailsAtFirstRejectedReply(username1, password1, replies, j);
      LoginFailsAtFirstRejectedReply(username2, password2, replies, j);
    }
  }

  /**
   * The rest of a run reads only the replies to the requests it sends: two
   * scripts that agree on those give the same run.
   */
  lemma {:induction false} RunFromReadsOnlyItsReplies(username: string, password: string,
                                                      replies1: seq<Reply>, replies2: seq<Reply>,
                                                      sentBefore: seq<Request>, stage: Stage)
    requires var run := RunFrom(username, password, replies1, sentBefore, stage);
      forall k :: StageIndex(stage) <= k < StageIndex(stage) + |run.sent| - |sentBefore| ==>
        ReplyTo(replies1, k) == ReplyTo(replies2, k)
    ensures RunFrom(username, password, replies1, sentBefore, stage)
         == RunFrom(username, password, replies2, sentBefore, stage)
    decreases 8 - StageIndex(stage)
  {
    var i := StageIndex(stage);
    var run := RunFrom(username, password, replies1, sentBefore, stage);
    assert ReplyTo(replies1, i) == ReplyTo(replies2, i);
    var step := Advance(username, password, stage, ReplyTo(replies1, i));
    if step.Next? {
      RunFromReadsOnlyItsReplies(username, password, replies1, replies2,
                                 sentBefore + [RequestOf(stage)], step.stage);
    }
  }

  /**
   * A login reads only the replies to the requests it sends: a script that
   * agrees with `replies` on those gives the same requests and the same
   * outcome, whatever it holds after them.
   */
  lemma LoginReadsOnlyAnsweredReplies(username: string, password: string,
                                      replies: seq<Reply>, other: seq<Reply>)
    requires forall k :: 0 <= k < |Negotiate(username, password, replies).sent| ==>
      ReplyTo(replies, k) == ReplyTo(other, k)
    ensures Negotiate(username, password, replies) == Negotiate(username, password, other)
  {
    RunFromReadsOnlyItsReplies(username, password, replies, other, [], Authorize);
  }

  /** Accepted ranges split at any point between their ends. */
  lemma {:induction false} AcceptedBetweenSplit(replies: seq<Reply>, i: nat, m: nat, j: nat)
    requires i <= m <= j
    ensures AcceptedBetween(replies, i, j) <==>
      AcceptedBetween(replies, i, m) && AcceptedBetween(replies, m, j)
    decreases m - i
  {
    if i < m {
      AcceptedBetweenSplit(replies, i + 1, m, j);
    }
  }

  /** Four requests appended one at a time are the four appended at once. */
  lemma AppendFour<T>(s: seq<T>, a: T, b: T, c: T, d: T)
    ensures s + [a] + [b] + [c] + [d] == s + [a, b, c, d]
  {
  }

  /** Two runs of four requests, one after the other. */
  lemma ConcatFour<T>(a: T, b: T, c: T, d: T, e: T, f: T, g: T, h: T)
    ensures [a, b, c, d] + [e, f, g, h] == [a, b, c, d, e, f, g, h]
  {
  }

  /**
   * The first four requests of a login whose first four replies are
   * accepted: the login redirect, the login page behind the meta refresh,
   * and the credentials posted to the AJAX endpoint cut from the form's
   * action; the run goes on at the CDATA target.
   */
  lemma SignInRequests(username: string, password: string, replies: seq<Reply>)
    requires AcceptedBetween(replies, 0, 4)
    ensures var meta := MetaContent(ReplyTo(replies, 1).body.doc);
      var loginPage := ReplyTo(replies, 2).body.doc;
      var action := FormAction(loginPage);
      Negotiate(username, password, replies) == RunFrom(username, password, replies,
        [Request(Post, AuthorizationURL,
                 JsonBody(map["redirectAfterLogin" := RedirectURL, "language" := "fi"])),
         Request(Get, RedirectUrlOf(ReplyTo(replies, 0).body.fields), NoBody),
         Request(Get, AuthenticationURL + meta[MetaPrefixLength..], NoBody),
         Request(Post, PortalURL + (action[1..1 + ActionKeepLength] + BehaviourSuffix),
                 FormBody(LoginFormData(loginPage, username, password)))],
        FollowCdataRedirect(PortalURL + CdataRedirect(ReplyTo(replies, 3).body.text).value))
  {
    var run := Negotiate(username, password, replies);
    var s0: seq<Request> := [];
    var q0 := RequestOf(Authorize);
    var s1 := s0 + [q0];
    var url1 := RedirectUrlOf(ReplyTo(replies, 0).body.fields);
    assert run == RunFrom(username, password, replies, s1, FollowLoginRedirect(url1));
    var s2 := s1 + [Request(Get, url1, NoBody)];
    var url2 := AuthenticationURL + MetaTarget(MetaContent(ReplyTo(replies, 1).body.doc)).value;
    assert run == RunFrom(username, password, replies, s2, OpenLoginForm(url2));
    var s3 := s2 + [Request(Get, url2, NoBody)];
    var loginPage := ReplyTo(replies, 2).body.doc;
    var action := FormAction(loginPage);
    var endpoint := BehaviourEndpoint(action).value;
    assert endpoint == action[1..1 + ActionKeepLength] + BehaviourSuffix;
    var form3 := LoginFormData(loginPage, username, password);
    assert run == RunFrom(username, password, replies, s3, SubmitCredentials(PortalURL + endpoint, form3));
    var q3 := Request(Post, PortalURL + endpoint, FormBody(form3));
    var s4 := s3 + [q3];
    var text := ReplyTo(replies, 3).body.text;
    assert exists i :: MatchesAt(text, i);
    assert run == RunFrom(username, password, replies, s4, FollowCdataRedirect(PortalURL + CdataRedirect(text).value));
    AppendFour(s0, q0, Request(Get, url1, NoBody), Request(Get, url2, NoBody), q3);
    assert s4 == [q0, Request(Get, url1, NoBody), Request(Get, url2, NoBody), q3];
  }

  /**
   * The last four requests of a run at the CDATA target whose replies from
   * the fifth on are accepted: the target itself, the consent page behind
   * its meta refresh, the consent form, and the landing URL's query.
   */
  lemma ConsentRequests(username: string, password: string, replies: seq<Reply>,
                        sentBefore: seq<Request>, url: string)
    requires AcceptedBetween(replies, 4, 8)
    ensures var consentMeta := MetaContent(ReplyTo(replies, 4).body.doc);
      var consentPage := ReplyTo(replies, 5).body.doc;
      RunFrom(username, password, replies, sentBefore, FollowCdataRedirect(url)).sent == sentBefore + [
        Request(Get, url, NoBody),
        Request(Get, consentMeta[MetaPrefixLength..], NoBody),
        Request(Post, FormAction(consentPage), FormBody(ConsentFormData(consentPage))),
        Request(Post, TokenURL, FormBody(ReplyTo(replies, 6).finalQuery))]
  {
    var run := RunFrom(username, password, replies, sentBefore, FollowCdataRedirect(url));
    var q4 := Request(Get, url, NoBody);
    var s5 := sentBefore + [q4];
    var url5 := MetaTarget(MetaContent(ReplyTo(replies, 4).body.doc)).value;
    assert run == RunFrom(username, password, replies, s5, OpenConsentForm(url5));
    var q5 := Request(Get, url5, NoBody);
    var s6 := s5 + [q5];
    var consentPage := ReplyTo(replies, 5).body.doc;
    var q6 := Request(Post, FormAction(consentPage), FormBody(ConsentFormData(consentPage)));
    assert run == RunFrom(username, password, replies, s6, SubmitConsent(q6.url, q6.body.form));
    var s7 := s6 + [q6];
    var q7 := Request(Post, TokenURL, FormBody(ReplyTo(replies, 6).finalQuery));
    assert run == RunFrom(username, password, replies, s7, ExchangeToken(q7.body.form));
    assert run.sent == s7 + [q7];
    AppendFour(sentBefore, q4, q5, q6, q7);
  }

  /**
   * A successful login's eight requests, each built from the reply before
   * by plain concatenation.
   */
  lemma SuccessfulLoginRequests(username: string, password: string, replies: seq<Reply>)
    requires AcceptedBetween(replies, 0, 8)
    ensures var meta := MetaContent(ReplyTo(replies, 1).body.doc);
      var loginPage := ReplyTo(replies, 2).body.doc;
      var action := FormAction(loginPage);
      var consentMeta := MetaContent(ReplyTo(replies, 4).body.doc);
      var consentPage := ReplyTo(replies, 5).body.doc;
      Negotiate(username, password, replies).sent == [
        Request(Post, AuthorizationURL,
                JsonBody(map["redirectAfterLogin" := RedirectURL, "language" := "fi"])),
        Request(Get, RedirectUrlOf(ReplyTo(replies, 0).body.fields), NoBody),
        Request(Get, AuthenticationURL + meta[MetaPrefixLength..], NoBody),
        Request(Post, PortalURL + (action[1..1 + ActionKeepLength] + BehaviourSuffix),
                FormBody(LoginFormData(loginPage, username, password))),
        Request(Get, PortalURL + CdataRedirect(ReplyTo(replies, 3).body.text).value, NoBody),
        Request(Get, consentMeta[MetaPrefixLength..], NoBody),
        Request(Post, FormAction(consentPage), FormBody(ConsentFormData(consentPage))),
        Request(Post, TokenURL, FormBody(ReplyTo(replies, 6).finalQuery))]
  {
    AcceptedBetweenSplit(replies, 0, 4, 8);
    SignInRequests(username, password, replies);
    var meta := MetaContent(ReplyTo(replies, 1).body.doc);
    var loginPage := ReplyTo(replies, 2).body.doc;
    var action := FormAction(loginPage);
    var signIn := [
      Request(Post, AuthorizationURL,
              JsonBody(map["redirectAfterLogin" := RedirectURL, "language" := "fi"])),
      Request(Get, RedirectUrlOf(ReplyTo(replies, 0).body.fields), NoBody),
      Request(Get, AuthenticationURL + meta[MetaPrefixLength..], NoBody),
      Request(Post, PortalURL + (action[1..1 + ActionKeepLength] + BehaviourSuffix),
              FormBody(LoginFormData(loginPage, username, password)))];
    var cdataTarget := PortalURL + CdataRedirect(ReplyTo(replies, 3).body.text).value;
    ConsentRequests(username, password, replies, signIn, cdataTarget);
    var consentMeta := MetaContent(ReplyTo(replies, 4).body.doc);
    var consentPage := ReplyTo(replies, 5).body.doc;
    ConcatFour(signIn[0], signIn[1], signIn[2], signIn[3],
               Request(Get, cdataTarget, NoBody),
               Request(Get, consentMeta[MetaPrefixLength..], NoBody),
               Request(Post, FormAction(consentPage), FormBody(ConsentFormData(consentPage))),
               Request(Post, TokenURL, FormBody(ReplyTo(replies, 6).finalQuery)));
  }
}
