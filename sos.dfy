/** The SOS endpoint `POST /api/sos`: checks the coordinates, builds a maps
    link and one alert message, and sends that message by SMS to every
    stored contact. The SMS provider is an outbox that records each send
    request; the fan-out is sequential here, and one rejected send fails the
    whole call, as `Promise.all` does. */
module Sos {
  import opened Js
  import opened Contacts

  /** The decoded request body: its `latitude` and `longitude` properties. */
  datatype SosRequest = SosRequest(latitude: JsonValue, longitude: JsonValue)

  /** One send request to the SMS provider. */
  datatype Sms = Sms(body: string, from: Option<string>, to: string)

  /** The response body: an error, a plain message, or the success report. */
  datatype SosBody =
    | ErrorBody(error: string)
    | MessageBody(message: string)
    | Notified(success: bool, message: string, contactsNotified: nat)

  datatype SosResponse = SosResponse(status: int, body: SosBody)

  const MapsPrefix := "https://www.google.com/maps?q="
  const CoordinatesRequired := "Latitude and longitude are required"
  const NoContacts := "No emergency contacts found"
  const SendFailed := "Failed to send SOS messages"
  const AllNotified := "SOS alert sent to all emergency contacts"

  /** The maps link for the given coordinates. */
  function MapsLink(latitude: JsonValue, longitude: JsonValue, numberText: real -> string): string
  {
    MapsPrefix + ToText(latitude, numberText) + "," + ToText(longitude, numberText)
  }

  /** The alert text, embedding the link and the formatted send time. */
  function AlertMessage(link: string, sentAt: string): string
  {
    "EMERGENCY SOS ALERT! I need immediate help. My current location : " + link + " (sent at " + sentAt + ")"
  }

  /** The link is the maps prefix, the latitude's text, a comma and the
      longitude's text, in that order and nothing more. */
  lemma MapsLinkParts(latitude: JsonValue, longitude: JsonValue, numberText: real -> string)
    ensures var link, a, b := MapsLink(latitude, longitude, numberText),
                              ToText(latitude, numberText), ToText(longitude, numberText);
      && StartsWith(link, MapsPrefix)
      && OccursAt(link, a, |MapsPrefix|)
      && link[|MapsPrefix| + |a|] == ','
      && OccursAt(link, b, |MapsPrefix| + |a| + 1)
      && |link| == |MapsPrefix| + |a| + 1 + |b|
  {
    var a, b := ToText(latitude, numberText), ToText(longitude, numberText);
    var link := MapsLink(latitude, longitude, numberText);
    assert link == MapsPrefix + a + "," + b;
    assert link[..|MapsPrefix|] == MapsPrefix;
    assert link[|MapsPrefix|..|MapsPrefix| + |a|] == a;
    assert link[|MapsPrefix| + |a| + 1..] == b;
  }

  /** The alert embeds the link and the send time verbatim. */
  lemma AlertEmbedsLink(link: string, sentAt: string)
    ensures Contains(AlertMessage(link, sentAt), link)
    ensures Contains(AlertMessage(link, sentAt), sentAt)
  {
    var prefix := "EMERGENCY SOS ALERT! I need immediate help. My current location : ";
    var m := AlertMessage(link, sentAt);
    assert OccursAt(m, link, |prefix|) by {
      assert m == prefix + link + " (sent at " + sentAt + ")";
    }
    assert OccursAt(m, sentAt, |prefix + link + " (sent at "|) by {
      assert m == (prefix + link + " (sent at ") + sentAt + ")";
    }
    ContainsIff(m, link);
    ContainsIff(m, sentAt);
  }

  /** One send per contact, in contact order, all with the same body and sender. */
  function FanOut(contacts: seq<Contact>, body: string, from: Option<string>): (r: seq<Sms>)
    ensures |r| == |contacts|
    ensures forall i :: 0 <= i < |r| ==> r[i].to == contacts[i].phoneNumber
    ensures forall i :: 0 <= i < |r| ==> r[i].body == body && r[i].from == from
  {
    if contacts == [] then [] else [Sms(body, from, contacts[0].phoneNumber)] + FanOut(contacts[1..], body, from)
  }

  /** The SMS provider: the send requests issued to it, in order. */
  class SmsProvider {
    var outbox: seq<Sms>

    constructor ()
      ensures outbox == []
    {
      outbox := [];
    }

    /** `messages.create`: records the request; `rejected` is the provider's
        verdict on it. */
    method Create(sms: Sms, rejected: bool) returns (ok: bool)
      modifies this
      ensures outbox == old(outbox) + [sms]
      ensures ok == !rejected
    {
      outbox := outbox + [sms];
      ok := !rejected;
    }
  }

  /** Both coordinates are truthy: `!latitude || !longitude` is false. */
  predicate HasCoordinates(request: SosRequest)
  {
    Truthy(request.latitude) && Truthy(request.longitude)
  }

  /** The alert text for a request. */
  function AlertFor(request: SosRequest, numberText: real -> string, sentAt: string): string
  {
    AlertMessage(MapsLink(request.latitude, request.longitude, numberText), sentAt)
  }

  /** The alert for a request carries its maps link and the send time. */
  lemma AlertForEmbeds(request: SosRequest, numberText: real -> string, sentAt: string)
    ensures Contains(AlertFor(request, numberText, sentAt), MapsLink(request.latitude, request.longitude, numberText))
    ensures Contains(AlertFor(request, numberText, sentAt), sentAt)
  {
    AlertEmbedsLink(MapsLink(request.latitude, request.longitude, numberText), sentAt);
  }

  /** Some send among the first `n` is rejected. */
  predicate AnyRejected(n: nat, rejected: set<nat>)
  {
    exists i :: 0 <= i < n && i in rejected
  }

  /** One more send is rejected somewhere exactly when it was before or this
      one is. */
  lemma AnyRejectedStep(n: nat, rejected: set<nat>)
    ensures AnyRejected(n + 1, rejected) <==> AnyRejected(n, rejected) || n in rejected
  {
    if AnyRejected(n + 1, rejected) && n !in rejected {
      var i :| 0 <= i < n + 1 && i in rejected;
      assert i < n;
    }
  }

  /** `contacts.map(... messages.create ...)` followed by `Promise.all`: every
      send is issued, and the batch succeeds only if none is rejected. */
  method SendAll(provider: SmsProvider, contacts: seq<Contact>, message: string,
                 sender: Option<string>, rejected: set<nat>)
    returns (allSent: bool)
    modifies provider
    ensures provider.outbox == old(provider.outbox) + FanOut(contacts, message, sender)
    ensures allSent <==> !AnyRejected(|contacts|, rejected)
  {
    allSent := true;
    var i := 0;
    while i < |contacts|
      invariant 0 <= i <= |contacts|
      invariant provider.outbox == old(provider.outbox) + FanOut(contacts[..i], message, sender)
      invariant allSent <==> !AnyRejected(i, rejected)
    {
      var sms := Sms(message, sender, contacts[i].phoneNumber);
      ghost var sent := FanOut(contacts[..i], message, sender);
      var ok := provider.Create(sms, i in rejected);
      FanOutPrefix(contacts, i, message, sender);
      assert provider.outbox == old(provider.outbox) + (sent + [sms]);
      AnyRejectedStep(i, rejected);
      allSent := allSent && ok;
      i := i + 1;
    }
    assert contacts[..i] == contacts;
  }

  /** `POST`. `request` is the decoded body (`None` when decoding throws);
      `sentAt` is the formatted local time; `loadFault` says whether loading
      the contacts throws; `sender` is the configured sender number;
      `rejected` holds the positions of the sends the provider rejects. */
  method Post(request: Option<SosRequest>, numberText: real -> string, sentAt: string,
              table: ContactTable, loadFault: bool, sender: Option<string>,
              provider: SmsProvider, rejected: set<nat>)
    returns (r: SosResponse)
    modifies provider
    ensures request.None? ==>
      r == SosResponse(500, ErrorBody(SendFailed)) && provider.outbox == old(provider.outbox)
    ensures request.Some? && !HasCoordinates(request.value) ==>
      r == SosResponse(400, ErrorBody(CoordinatesRequired)) && provider.outbox == old(provider.outbox)
    ensures request.Some? && HasCoordinates(request.value) && loadFault ==>
      r == SosResponse(500, ErrorBody(SendFailed)) && provider.outbox == old(provider.outbox)
    ensures request.Some? && HasCoordinates(request.value) && !loadFault && table.rows == [] ==>
      r == SosResponse(200, MessageBody(NoContacts)) && provider.outbox == old(provider.outbox)
    ensures request.Some? && HasCoordinates(request.value) && !loadFault && table.rows != [] ==>
      provider.outbox == old(provider.outbox) + FanOut(table.rows, AlertFor(request.value, numberText, sentAt), sender)
    ensures request.Some? && HasCoordinates(request.value) && !loadFault && table.rows != [] ==>
      r == if AnyRejected(|table.rows|, rejected) then SosResponse(500, ErrorBody(SendFailed))
           else SosResponse(200, Notified(true, AllNotified, |table.rows|))
  {
    if request.None? {
      return SosResponse(500, ErrorBody(SendFailed));
    }
    if !HasCoordinates(request.value) {
      return SosResponse(400, ErrorBody(CoordinatesRequired));
    }
    var link := MapsLink(request.value.latitude, request.value.longitude, numberText);
    if loadFault {
      return SosResponse(500, ErrorBody(SendFailed));
    }
    var contacts := table.rows;
    if |contacts| == 0 {
      return SosResponse(200, MessageBody(NoContacts));
    }
    var message := AlertMessage(link, sentAt);
    var allSent := SendAll(provider, contacts, message, sender, rejected);
    if !allSent {
      return SosResponse(500, ErrorBody(SendFailed));
    }
    r := SosResponse(200, Notified(true, AllNotified, |contacts|));
  }

  lemma {:induction false} FanOutSnoc(contacts: seq<Contact>, c: Contact, body: string, from: Option<string>)
    ensures FanOut(contacts + [c], body, from) == FanOut(contacts, body, from) + [Sms(body, from, c.phoneNumber)]
  {
    if contacts != [] {
      assert (contacts + [c])[1..] == contacts[1..] + [c];
      FanOutSnoc(contacts[1..], c, body, from);
    } else {
      assert contacts + [c] == [c];
    }
  }

  /** The sends for one more contact of the list extend those before it. */
  lemma FanOutPrefix(contacts: seq<Contact>, i: nat, body: string, from: Option<string>)
    requires i < |contacts|
    ensures FanOut(contacts[..i + 1], body, from) == FanOut(contacts[..i], body, from) + [Sms(body, from, contacts[i].phoneNumber)]
  {
    assert contacts[..i + 1] == contacts[..i] + [contacts[i]];
    FanOutSnoc(contacts[..i], contacts[i], body, from);
  }

  /** A latitude or longitude of exactly 0 counts as missing. */
  lemma ZeroCoordinateRejected(latitude: JsonValue, longitude: JsonValue)
    requires latitude == Num(0.0) || longitude == Num(0.0)
    ensures !(Truthy(latitude) && Truthy(longitude))
  {
  }
}
