/** The channels that websocket_gateway/revocation.py publishes a revoke on. */
module Publisher {
  import opened ChannelNames
  import opened Options

  /** The receiver of the logout signal, given the session key of the request, if it has one: without a
      key nothing is published. */
  function OnLogout(sessionKey: Option<string>): Option<string> {
    if sessionKey.None? || sessionKey.value == "" then None else Some("_session:" + sessionKey.value)
  }

  /** force_logout_user, given the user's primary key as it prints. */
  function ForceLogout(pk: string): string {
    "_user:" + pk + ":revoke"
  }

  /** They are the channels the gateway puts the connections of that session and of that user on, and
      nobody else's. */
  lemma PublisherAddressesTarget(key: string, pk: string, id: int)
    ensures OnLogout(Some(key)) == if key == "" then None else Some(SessionChannel(key))
    ensures OnLogout(None) == None
    ensures ForceLogout(pk) == UserChannel(id) <==> DecimalInt(pk, id)
  {
    UserIDIsDecimal(pk, id);
    if ForceLogout(pk) == UserChannel(id) {
      var f := FormatUserID(id);
      assert |ForceLogout(pk)| == 6 + |pk| + 7 && |UserChannel(id)| == 6 + |f| + 7;
      assert ForceLogout(pk)[6..6 + |pk|] == pk && UserChannel(id)[6..6 + |f|] == f;
    }
  }
}
