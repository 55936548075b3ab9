/** What the companion firmware replies to each command, by reply code, and that the multiplexer waits for exactly
    that. */
module Firmware {
  import opened Bytes
  import opened Protocol

  /** The commands that a frame with this code answers, and ends: the firmware's side of the protocol. ERROR (0x01)
      may end any. */
  function AnsweredWith(code: byte): set<byte> {
    match code
    case 0x00 =>  // OK: setters, actions, and the import of a private key
      {0x03, 0x06, 0x07, 0x08, 0x09, 0x0B, 0x0C, 0x0D, 0x0E, 0x0F, 0x10, 0x12, 0x15, 0x18, 0x19, 0x1C, 0x1D, 0x20, 0x22,
       0x25, 0x26, 0x29, 0x33, 0x36, 0x37, 0x3A, 0x3D, 0x3E, 0x3F, 0x41}
    case 0x03 => {0x1E}        // CONTACT: GET_CONTACT_BY_KEY
    case 0x04 => {0x04}        // END_OF_CONTACTS: GET_CONTACTS
    case 0x05 => {0x01}        // SELF_INFO: APP_START
    case 0x06 =>               // SENT: direct text, login, status, trace, binary, discovery and anonymous requests
      {0x02, 0x1A, 0x1B, 0x24, 0x32, 0x34, 0x39}
    case 0x07 => {0x0A}        // CONTACT_MSG_RECV: GET_MSG
    case 0x08 => {0x0A}        // CHANNEL_MSG_RECV
    case 0x09 => {0x05}        // CURR_TIME: GET_DEVICE_TIME
    case 0x0A => {0x0A}        // NO_MORE_MESSAGES
    case 0x0B => {0x11}        // EXPORT_CONTACT
    case 0x0C => {0x14}        // BATT_AND_STORAGE: GET_BATT_AND_STORAGE
    case 0x0D => {0x16}        // DEVICE_INFO: DEVICE_QUERY
    case 0x0E => {0x17}        // PRIVATE_KEY: EXPORT_PRIVATE_KEY
    case 0x0F => {0x17, 0x18}  // DISABLED: export or import of the private key
    case 0x10 => {0x0A}        // CONTACT_MSG_RECV_V3
    case 0x11 => {0x0A}        // CHANNEL_MSG_RECV_V3
    case 0x12 => {0x1F}        // CHANNEL_INFO: GET_CHANNEL
    case 0x13 => {0x21}        // SIGN_START
    case 0x14 => {0x23}        // SIGNATURE: SIGN_FINISH
    case 0x15 => {0x28}        // CUSTOM_VARS
    case 0x16 => {0x2A}        // ADVERT_PATH
    case 0x17 => {0x2B}        // TUNING_PARAMS
    case 0x18 => {0x38}        // STATS
    case 0x19 => {0x3B}        // AUTOADD_CONFIG
    case 0x1A => {0x3C}        // ALLOWED_REPEAT_FREQ
    case 0x1B => {0x0A}        // CHANNEL_DATA_RECV
    case 0x1C => {0x40}        // DEFAULT_FLOOD_SCOPE
    case 0x1D => {0x42}        // CLI_REPLY
    case _ => {}
  }

  /** SEND_TELEMETRY_REQ is answered by its length: about the radio itself with the TELEMETRY_RESPONSE push, about a
      remote node with SENT. */
  predicate Ends(cmd: Command, code: byte) {
    if cmd[0] == 0x27 then code == (if |cmd| == 4 then 0x8B else 0x06) else cmd[0] in AnsweredWith(code)
  }

  /** CONTACTS_START and CONTACT come before the end of GET_CONTACTS. */
  predicate Precedes(cmd: Command, code: byte) {
    cmd[0] == 0x04 && code in {0x02, 0x03}
  }

  /** The commands whose replies are known. */
  ghost predicate Listed(cmd: Command) {
    exists code :: Ends(cmd, code)
  }

  /** A whole reply of the firmware: what precedes, then what ends; or an ERROR at any point. A command that is not
      listed gets one frame that is no push. */
  ghost predicate FirmwareReply(cmd: Command, frames: seq<Command>) {
    && frames != []
    && (forall i :: 0 <= i < |frames| - 1 ==> Precedes(cmd, frames[i][0]))
    && EndsOrFails(cmd, frames[|frames| - 1][0])
  }

  ghost predicate EndsOrFails(cmd: Command, code: byte) {
    code == 0x01 || (if Listed(cmd) then Ends(cmd, code) else !IsPush(code))
  }

  lemma EndIsAwaited(cmd: Command, code: byte)
    requires Ends(cmd, code)
    ensures var a := AwaitingFor(cmd);
            (a.OneOf? && code in a.codes) || (a.Stream? && code == a.terminator && cmd[0] == 0x04)
  {
  }

  lemma AwaitedIsEnd(cmd: Command, code: byte)
    requires AwaitingFor(cmd).OneOf? && code in AwaitingFor(cmd).codes
    ensures Ends(cmd, code) && cmd[0] != 0x04 && code != 0x01
  {
  }

  lemma StreamIsContacts(cmd: Command)
    ensures cmd[0] == 0x04 <==> AwaitingFor(cmd) == Stream({0x02, 0x03}, 0x04)
    ensures cmd[0] == 0x04 <==> AwaitingFor(cmd).Stream?
    ensures cmd[0] == 0x04 ==> forall code :: Ends(cmd, code) <==> code == 0x04
    ensures AwaitingFor(cmd).OneOf? ==> AwaitingFor(cmd).codes != {}
  {
  }

  lemma AnyIsUnlisted(cmd: Command)
    ensures Listed(cmd) <==> !AwaitingFor(cmd).Any?
  {
    hide Ends, AwaitingFor;
    StreamIsContacts(cmd);
    if AwaitingFor(cmd).OneOf? {
      var code :| code in AwaitingFor(cmd).codes;
      AwaitedIsEnd(cmd, code);
    } else if AwaitingFor(cmd).Stream? {
      assert Ends(cmd, 0x04);
    } else if Listed(cmd) {
      var code :| Ends(cmd, code);
      EndIsAwaited(cmd, code);
    }
  }

  /** A request takes a frame if and only if the frame is part of the firmware's reply to it, and is over with it if and
      only if the frame ends that reply; and a request with an unlisted command takes any one frame that is no push. */
  lemma TakenExactly(cmd: Command, code: byte)
    ensures AwaitingFor(cmd).Belongs(code)
            <==> code == 0x01 || (if Listed(cmd) then Ends(cmd, code) || Precedes(cmd, code) else !IsPush(code))
    ensures AwaitingFor(cmd).Belongs(code) ==>
              (AwaitingFor(cmd).Completes(code) <==> code == 0x01 || !Listed(cmd) || Ends(cmd, code))
  {
    hide Ends, AwaitingFor, Listed;
    AnyIsUnlisted(cmd);
    StreamIsContacts(cmd);
    if Ends(cmd, code) {
      EndIsAwaited(cmd, code);
    }
    if AwaitingFor(cmd).OneOf? && code in AwaitingFor(cmd).codes {
      AwaitedIsEnd(cmd, code);
    }
  }

  /** The firmware's replies are the whole replies. */
  lemma ReplyIsWhole(cmd: Command, frames: seq<Command>)
    ensures FirmwareReply(cmd, frames) <==> WholeReply(AwaitingFor(cmd), frames)
  {
    var a := AwaitingFor(cmd);
    hide Ends, AwaitingFor, Listed;
    forall i | 0 <= i < |frames|
      ensures a.Belongs(frames[i][0]) && !a.Completes(frames[i][0]) <==> Precedes(cmd, frames[i][0])
      ensures a.Belongs(frames[i][0]) && a.Completes(frames[i][0]) <==> EndsOrFails(cmd, frames[i][0])
    {
      TakenExactly(cmd, frames[i][0]);
      AnyIsUnlisted(cmd);
      OnlyBefore(cmd);
    }
    hide Awaiting.Belongs, Awaiting.Completes, Precedes, EndsOrFails;
    assert FirmwareReply(cmd, frames) <==>
             frames != [] && (forall i :: 0 <= i < |frames| - 1 ==> Precedes(cmd, frames[i][0]))
             && EndsOrFails(cmd, frames[|frames| - 1][0]);
  }

  /** What precedes an end neither is one nor an ERROR. */
  lemma OnlyBefore(cmd: Command)
    ensures forall code :: Precedes(cmd, code) ==> !Ends(cmd, code) && code != 0x01 && Listed(cmd)
  {
    if cmd[0] == 0x04 {
      assert Ends(cmd, 0x04);
      StreamIsContacts(cmd);
    }
    hide Ends;
  }

  // ---------------------------------------------------------------------
  // Commands that change the radio's own data
  // ---------------------------------------------------------------------

  const SET_ADVERT_NAME: byte := 0x08
  const SET_RADIO_PARAMS: byte := 0x0B
  const SET_RADIO_TX_POWER: byte := 0x0C
  const SET_ADVERT_LATLON: byte := 0x0E
  const SET_TUNING_PARAMS: byte := 0x15
  const SET_DEVICE_PIN: byte := 0x25
  const SET_OTHER_PARAMS: byte := 0x26
  const FACTORY_RESET: byte := 0x33

  predicate IsSetter(cmd: Command) {
    cmd[0] in {SET_ADVERT_NAME, SET_RADIO_PARAMS, SET_RADIO_TX_POWER, SET_ADVERT_LATLON, SET_TUNING_PARAMS,
               SET_DEVICE_PIN, SET_OTHER_PARAMS, FACTORY_RESET}
  }
}
