/** The parameter record both call pages hand to the video-call widget. */
module Rtc {
  import opened Net

  /** The widget application id written into the source as a literal. */
  const LiteralAppId: string := "0667a7d327224fb7b8c3856c507692ec"

  /** The only role either page ever asks the widget for. */
  const HostRole: string := "host"

  /** `{appId, channel, token, uid, role}` as passed in `rtcProps`. */
  datatype RtcProps = RtcProps(appId: string, channel: string, token: string, uid: Key, role: string)

  /** `env || literal`: the configured application id when it is set to a
      non-empty string, the literal otherwise; never empty. */
  function AppIdFrom(env: Option<string>): (appId: string)
    ensures appId != ""
    ensures Truthy(env) ==> appId == env.value
    ensures !Truthy(env) ==> appId == LiteralAppId
  {
    if Truthy(env) then env.value else LiteralAppId
  }
}
