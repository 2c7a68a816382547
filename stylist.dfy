/** The stylist dashboard: log in, list pending appointments, accept one,
    take the call, end it. */
module Stylist {
  import opened Net
  import opened Rtc

  /** A pending appointment as the API lists it. */
  datatype Appointment = Appointment(id: Key, userId: Option<string>)

  /** The fields the page reads from each response body. */
  datatype LoginData = LoginData(token: Option<string>)
  datatype PendingData = PendingData(pendingAppointments: seq<Appointment>)
  datatype AcceptData = AcceptData(channelName: string, agoraToken: string, uid: Key)

  /** A request the page sends, with the bearer token it attaches. */
  datatype Request =
    | LoginRequest(email: string, password: string)
    | PendingRequest(bearer: Option<string>)
    | AcceptRequest(bearer: Option<string>, appointmentId: Key)
    | EndRequest(bearer: Option<string>, ending: Option<Key>)

  class StylistPage {
    var appointmentId: Option<Key>
    var token: Option<string>
    var appointments: seq<Appointment>
    var videocall: bool
    var channelName: string
    var rtcProps: Option<RtcProps>
    var email: string
    var password: string
    /** Every request the page has sent, in order. */
    ghost var requests: seq<Request>

    constructor ()
      ensures appointmentId == None && token == None && appointments == []
      ensures !videocall && channelName == "" && rtcProps == None
      ensures email == "" && password == "" && requests == []
    {
      appointmentId := None;
      token := None;
      appointments := [];
      videocall := false;
      channelName := "";
      rtcProps := None;
      email := "";
      password := "";
      requests := [];
    }

    /** The login form is shown while the token is falsy; the appointment
        list otherwise. */
    predicate LoginViewShown()
      reads this
    {
      !Truthy(token)
    }

    /** The call view (widget and End Call button) is shown iff a call is
        flagged and its parameters are set. */
    predicate CallViewShown()
      reads this
    {
      videocall && rtcProps.Some?
    }

    method SetEmail(value: string)
      modifies this`email
      ensures email == value
    {
      email := value;
    }

    method SetPassword(value: string)
      modifies this`password
      ensures password == value
    {
      password := value;
    }

    /** The login handler: posts the credentials and stores the token the
        response carries; a rejected login leaves the token as it was. */
    method HandleLogin(response: Response<LoginData>)
      modifies this`token, this`requests
      ensures requests == old(requests) + [LoginRequest(email, password)]
      ensures token == if response.Success? then response.data.token else old(token)
      ensures response.Success? ==> (LoginViewShown() <==> !Truthy(response.data.token))
      ensures response.Failure? ==> LoginViewShown() == old(LoginViewShown())
    {
      requests := requests + [LoginRequest(email, password)];
      if response.Success? {
        token := response.data.token;
      }
    }

    /** Fetches the pending appointments with the current token; a
        successful response replaces the list wholesale. */
    method FetchPendingAppointments(response: Response<PendingData>)
      modifies this`appointments, this`requests
      ensures requests == old(requests) + [PendingRequest(token)]
      ensures appointments == if response.Success? then response.data.pendingAppointments else old(appointments)
    {
      requests := requests + [PendingRequest(token)];
      if response.Success? {
        appointments := response.data.pendingAppointments;
      }
    }

    /** The effect keyed on `token`, run after a render in which the token
        was `previous`: it fetches iff the token changed and is truthy. */
    method TokenEffect(previous: Option<string>, response: Response<PendingData>)
      modifies this`appointments, this`requests
      ensures token != previous && Truthy(token) ==>
        && requests == old(requests) + [PendingRequest(token)]
        && appointments == (if response.Success? then response.data.pendingAppointments else old(appointments))
      ensures !(token != previous && Truthy(token)) ==>
        requests == old(requests) && appointments == old(appointments)
    {
      if token != previous && Truthy(token) {
        FetchPendingAppointments(response);
      }
    }

    /** A click on Login: the handler, then the effect its token change
        schedules. The list is fetched iff the login stored a new truthy
        token. */
    method Login(login: Response<LoginData>, pending: Response<PendingData>)
      modifies this`token, this`appointments, this`requests
      ensures token == if login.Success? then login.data.token else old(token)
      ensures token != old(token) && Truthy(token) ==>
        && requests == old(requests) + [LoginRequest(email, password), PendingRequest(token)]
        && appointments == (if pending.Success? then pending.data.pendingAppointments else old(appointments))
      ensures !(token != old(token) && Truthy(token)) ==>
        requests == old(requests) + [LoginRequest(email, password)] && appointments == old(appointments)
    {
      var previous := token;
      HandleLogin(login);
      TokenEffect(previous, pending);
    }

    /** The connect handler: accepts appointment `id` and, on success, sets
        up the call from the response. Nothing guards against a call
        already being active; a rejected accept changes nothing but the
        request log. */
    method HandleConnect(id: Key, response: Response<AcceptData>)
      modifies this`appointmentId, this`channelName, this`rtcProps, this`videocall, this`requests
      ensures requests == old(requests) + [AcceptRequest(token, id)]
      ensures response.Success? ==>
        && appointmentId == Some(id)
        && channelName == response.data.channelName
        && rtcProps == Some(RtcProps(LiteralAppId, response.data.channelName, response.data.agoraToken,
                                     response.data.uid, HostRole))
        && videocall
        && CallViewShown()
      ensures response.Failure? ==>
        && appointmentId == old(appointmentId) && channelName == old(channelName)
        && rtcProps == old(rtcProps) && videocall == old(videocall)
    {
      requests := requests + [AcceptRequest(token, id)];
      if response.Success? {
        var data := response.data;
        appointmentId := Some(id);
        var props := RtcProps(LiteralAppId, data.channelName, data.agoraToken, data.uid, HostRole);
        channelName := data.channelName;
        rtcProps := Some(props);
        videocall := true;
      }
    }

    /** The Connect button of the `k`-th listed appointment, shown only
        with the list. */
    method OnConnectButton(k: nat, response: Response<AcceptData>)
      requires !LoginViewShown() && k < |appointments|
      modifies this`appointmentId, this`channelName, this`rtcProps, this`videocall, this`requests
      ensures requests == old(requests) + [AcceptRequest(token, appointments[k].id)]
      ensures response.Success? ==>
        && appointmentId == Some(appointments[k].id)
        && channelName == response.data.channelName
        && rtcProps == Some(RtcProps(LiteralAppId, response.data.channelName, response.data.agoraToken,
                                     response.data.uid, HostRole))
        && videocall
        && CallViewShown()
      ensures response.Failure? ==>
        && appointmentId == old(appointmentId) && channelName == old(channelName)
        && rtcProps == old(rtcProps) && videocall == old(videocall)
    {
      HandleConnect(appointments[k].id, response);
    }

    /** The leave handler: sends the end notification for `id`, then, however
        that settles, clears the call. The appointment id and the token stay. */
    method HandleLeaveCall(id: Option<Key>, response: Response<()>)
      modifies this`videocall, this`rtcProps, this`requests
      ensures requests == old(requests) + [EndRequest(token, id)]
      ensures !videocall && rtcProps == None && !CallViewShown()
    {
      requests := requests + [EndRequest(token, id)];
      videocall := false;
      rtcProps := None;
    }

    /** The End Call button of the call view: leaves the current appointment. */
    method OnEndCallButton(response: Response<()>)
      requires CallViewShown()
      modifies this`videocall, this`rtcProps, this`requests
      ensures requests == old(requests) + [EndRequest(token, appointmentId)]
      ensures !videocall && rtcProps == None && !CallViewShown()
    {
      HandleLeaveCall(appointmentId, response);
    }
  }
}
