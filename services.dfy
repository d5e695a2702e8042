/** The two foreign services the link-issuing servers call: the identity provider's
    admin interface, which mints verification links, and the transactional email sender.
    Their outcomes are not computed here; each call takes the outcome as a parameter,
    and the model records every request made, so that callers can be proved to have
    made or not made a call. */
module Services {
  import opened Wrappers

  /** A request to mint an email-verification link for `email` that returns to `continueUrl`. */
  datatype LinkRequest = LinkRequest(email: string, continueUrl: string)

  /** An email handed to the sender. */
  datatype Message = Message(from: string, to: string, subject: string, html: string)

  class World {
    /** Every link-minting request, in order. */
    var linkRequests: seq<LinkRequest>
    /** Every email handed to the sender, in order. */
    var outbox: seq<Message>

    constructor ()
      ensures linkRequests == [] && outbox == []
    {
      linkRequests := [];
      outbox := [];
    }

    /** `admin.auth().generateEmailVerificationLink(email, { url: continueUrl })`:
        `minted` is the link the provider returns, or `None` when the call rejects. */
    method GenerateLink(email: string, continueUrl: string, minted: Option<string>)
      returns (link: Option<string>)
      modifies this
      ensures linkRequests == old(linkRequests) + [LinkRequest(email, continueUrl)]
      ensures outbox == old(outbox)
      ensures link == minted
    {
      linkRequests := linkRequests + [LinkRequest(email, continueUrl)];
      link := minted;
    }

    /** `resend.emails.send(m)`: `delivered` says whether the call resolves. */
    method SendEmail(m: Message, delivered: bool) returns (ok: bool)
      modifies this
      ensures outbox == old(outbox) + [m]
      ensures linkRequests == old(linkRequests)
      ensures ok == delivered
    {
      outbox := outbox + [m];
      ok := delivered;
    }
  }
}
