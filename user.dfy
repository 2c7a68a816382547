/** The user dashboard: log in, list stylists, request a call with one,
    take the call, end it. */
module User {
  import opened Net
  import opened Rtc

  /** A stylist as the user directory lists it; `id` is the response's `_id`. */
  datatype StylistEntry = StylistEntry(id: Key, name: string)

  /** The fields the page reads from each response body. */
  datatype LoginData = LoginData(token: Option<string>)
  datatype StylistsData = StylistsData(stylists: seq<StylistEntry>)
  datatype ConnectData = ConnectData(channelName: string, agoraToken: string, userId: Key)

  /** A request the page sends, with the bearer token it attaches. */
  datatype Request =
    | LoginRequest(email: string, password: string)
    | StylistsRequest(bearer: Option<string>)
    | ConnectRequest(bearer: Option<string>, stylistId: Key)

  class UserPage {
    /** The build-time value of the app id variable (`None` when unset). */
    const appIdEnv: Option<string>
    var token: Option<string>
    var stylists: seq<StylistEntry>
    var videocall: bool
    var channelName: string
    var rtcProps: Option<RtcProps>
    var email: string
    var password: string
    /** Every request the page has sent, in order. */
    ghost var requests: seq<Request>

    constructor (env: Option<string>)
      ensures appIdEnv == env && token == None && stylists == []
      ensures !videocall && channelName == "" && rtcProps == None
      ensures email == "" && password == "" && requests == []
    {
      appIdEnv := env;
      token := None;
      stylists := [];
      videocall := false;
      channelName := "";
      rtcProps := None;
      email := "";
      password := "";
      requests := [];
    }

    /** The login form is shown while the token is falsy; the stylist list
        otherwise. */
    predicate LoginViewShown()
      reads this
    {
      !Truthy(token)
    }

    /** The call view (widget and End Call button) is shown iff a call is
        flagged and its parameters are set. */
    predicate CallViewShown()
      reads this
    {
      videocall && rtcProps.Some?
    }

    method SetEmail(value: string)
      modifies this`email
      ensures email == value
    {
      email := value;
    }

    method SetPassword(value: string)
      modifies this`password
      ensures password == value
    {
      password := value;
    }

    /** The login handler: posts the credentials and stores the token the
        response carries; a rejected login leaves the token as it was. */
    method HandleLogin(response: Response<LoginData>)
      modifies this`token, this`requests
      ensures requests == old(requests) + [LoginRequest(email, password)]
      ensures token == if response.Success? then response.data.token else old(token)
      ensures response.Success? ==> (LoginViewShown() <==> !Truthy(response.data.token))
      ensures response.Failure? ==> LoginViewShown() == old(LoginViewShown())
    {
      requests := requests + [LoginRequest(email, password)];
      if response.Success? {
        token := response.data.token;
      }
    }

    /** Fetches the stylist directory with the current token; a successful
        response replaces the list wholesale. */
    method FetchStylists(response: Response<StylistsData>)
      modifies this`stylists, this`requests
      ensures requests == old(requests) + [StylistsRequest(token)]
      ensures stylists == if response.Success? then response.data.stylists else old(stylists)
    {
      requests := requests + [StylistsRequest(token)];
      if response.Success? {
        stylists := response.data.stylists;
      }
    }

    /** The effect keyed on `token`, run after a render in which the token
        was `previous`: it fetches iff the token changed and is truthy. */
    method TokenEffect(previous: Option<string>, response: Response<StylistsData>)
      modifies this`stylists, this`requests
      ensures token != previous && Truthy(token) ==>
        && requests == old(requests) + [StylistsRequest(token)]
        && stylists == (if response.Success? then response.data.stylists else old(stylists))
      ensures !(token != previous && Truthy(token)) ==>
        requests == old(requests) && stylists == old(stylists)
    {
      if token != previous && Truthy(token) {
        FetchStylists(response);
      }
    }

    /** A click on Login: the handler, then the effect its token change
        schedules. The directory is fetched iff the login stored a new
        truthy token. */
    method Login(login: Response<LoginData>, directory: Response<StylistsData>)
      modifies this`token, this`stylists, this`requests
      ensures token == if login.Success? then login.data.token else old(token)
      ensures token != old(token) && Truthy(token) ==>
        && requests == old(requests) + [LoginRequest(email, password), StylistsRequest(token)]
        && stylists == (if directory.Success? then directory.data.stylists else old(stylists))
      ensures !(token != old(token) && Truthy(token)) ==>
        requests == old(requests) + [LoginRequest(email, password)] && stylists == old(stylists)
    {
      var previous := token;
      HandleLogin(login);
      TokenEffect(previous, directory);
    }

    /** The connect handler: requests a call with stylist `id` and, on
        success, sets up the call from the response, taking the widget uid
        from its `userId`. Nothing guards against a call already being
        active; a rejected request changes nothing but the request log. */
    method HandleConnect(id: Key, response: Response<ConnectData>)
      modifies this`channelName, this`rtcProps, this`videocall, this`requests
      ensures requests == old(requests) + [ConnectRequest(token, id)]
      ensures response.Success? ==>
        && channelName == response.data.channelName
        && rtcProps == Some(RtcProps(AppIdFrom(appIdEnv), response.data.channelName, response.data.agoraToken,
                                     response.data.userId, HostRole))
        && videocall
        && CallViewShown()
      ensures response.Failure? ==>
        channelName == old(channelName) && rtcProps == old(rtcProps) && videocall == old(videocall)
    {
      requests := requests + [ConnectRequest(token, id)];
      if response.Success? {
        var data := response.data;
        var props := RtcProps(AppIdFrom(appIdEnv), data.channelName, data.agoraToken, data.userId, HostRole);
        channelName := data.channelName;
        rtcProps := Some(props);
        videocall := true;
      }
    }

    /** The Connect button of the `k`-th listed stylist, shown only with
        the list. */
    method OnConnectButton(k: nat, response: Response<ConnectData>)
      requires !LoginViewShown() && k < |stylists|
      modifies this`channelName, this`rtcProps, this`videocall, this`requests
      ensures requests == old(requests) + [ConnectRequest(token, stylists[k].id)]
      ensures response.Success? ==>
        && channelName == response.data.channelName
        && rtcProps == Some(RtcProps(AppIdFrom(appIdEnv), response.data.channelName, response.data.agoraToken,
                                     response.data.userId, HostRole))
        && videocall
        && CallViewShown()
      ensures response.Failure? ==>
        channelName == old(channelName) && rtcProps == old(rtcProps) && videocall == old(videocall)
    {
      HandleConnect(stylists[k].id, response);
    }

    /** The leave handler: purely local, it clears the call and sends
        nothing. Run on a page with no call it changes nothing, so running
        it twice is the same as running it once. */
    method HandleLeaveCall()
      modifies this`videocall, this`rtcProps
      ensures !videocall && rtcProps == None && !CallViewShown()
      ensures old(!videocall && rtcProps == None) ==> unchanged(this)
    {
      videocall := false;
      rtcProps := None;
    }

    /** The widget's EndCall callback: the leave handler itself. */
    method OnWidgetEndCall()
      requires CallViewShown()
      modifies this`videocall, this`rtcProps
      ensures !videocall && rtcProps == None && !CallViewShown()
    {
      HandleLeaveCall();
    }

    /** The End Call button of the call view: the same leave handler, so
        the same effect as the widget's callback. */
    method OnEndCallButton()
      requires CallViewShown()
      modifies this`videocall, this`rtcProps
      ensures !videocall && rtcProps == None && !CallViewShown()
    {
      HandleLeaveCall();
    }
  }
}
