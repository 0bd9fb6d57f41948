/**
 * Where server.js and api/server.js disagree, and what the page's requests
 * meet at either of them.
 */
module ServerVariants {
  import opened Wrappers
  import opened Http
  import DataUrl
  import LocalServer
  import ApiServer
  import Visualizer

  /**
   * Save: the two servers produce the same outcome exactly when both fields
   * are present and the insert succeeds; every other case differs at least in
   * its message.
   */
  lemma SaveOutcomesAgree(body: RequestBody, insertOk: bool)
    ensures LocalServer.SaveWaveform(body, insertOk) == ApiServer.SaveWaveform(body, insertOk)
      <==> HasEmailAndImage(body) && insertOk
  {
  }

  /**
   * Save: the status codes differ exactly when the image is present but the
   * email is not. server.js then rejects with 400 and stores nothing;
   * api/server.js stores the image with a NULL email.
   */
  lemma SaveStatusDiffers(body: RequestBody, insertOk: bool)
    ensures var local := LocalServer.SaveWaveform(body, insertOk);
      var api := ApiServer.SaveWaveform(body, insertOk);
      && (local.response.status != api.response.status <==> !Truthy(body.email) && Truthy(body.imageData))
      && (!Truthy(body.email) && Truthy(body.imageData) ==>
            && local.response.status == StatusBadRequest && local.effects == []
            && api.effects == [Insert(Row(None, body.imageData.s))])
  {
  }

  /**
   * Send: both servers attempt the same effects for every input, and answer
   * with different status codes exactly when the mail fails after the row
   * was stored: 200 from server.js, 500 from api/server.js.
   */
  lemma SendStatusDiffers(body: RequestBody, insertOk: bool, mailOk: bool)
    ensures var local := LocalServer.SendWaveform(body, insertOk, mailOk);
      var api := ApiServer.SendWaveform(body, insertOk, mailOk);
      && local.effects == api.effects
      && (local.response.status != api.response.status <==> HasEmailAndImage(body) && insertOk && !mailOk)
      && (HasEmailAndImage(body) && insertOk && !mailOk ==>
            local.response.status == StatusOk && api.response.status == StatusServerError)
  {
  }

  /**
   * server.js cannot tell a delivered mail from a failed one by status code;
   * api/server.js can.
   */
  lemma MailFailureVisibility(body: RequestBody)
    requires HasEmailAndImage(body)
    ensures LocalServer.SendWaveform(body, true, true).response.status
         == LocalServer.SendWaveform(body, true, false).response.status
    ensures ApiServer.SendWaveform(body, true, true).response.status
         != ApiServer.SendWaveform(body, true, false).response.status
  {
  }

  /**
   * A request the page lets through from a canvas with pixels passes both
   * servers' validation, and the mail carries exactly the PNG's base64 text
   * as its attachment.
   */
  lemma ClientSendAccepted(email: string, width: nat, height: nat, png: string, insertOk: bool, mailOk: bool)
    requires width > 0 && height > 0
    requires forall k :: 0 <= k < |png| ==> DataUrl.IsBase64Char(png[k])
    requires Visualizer.SendWaveformToEmail(email, width, height, png).Post?
    ensures var body := Visualizer.SendWaveformToEmail(email, width, height, png).body;
      && HasEmailAndImage(body)
      && (insertOk ==> LocalServer.SendWaveform(body, insertOk, mailOk).effects[1] == SendMail(email, Some(png)))
      && (insertOk ==> ApiServer.SendWaveform(body, insertOk, mailOk).effects[1] == SendMail(email, Some(png)))
  {
    Visualizer.CanvasAttachment(width, height, png);
  }

  /**
   * From a canvas with no pixels the page posts the bare `"data:,"`: both
   * servers accept and store it, and a successful insert attempts a mail
   * whose attachment content is undefined.
   */
  lemma ClientSendEmptyCanvas(email: string, width: nat, height: nat, png: string, insertOk: bool, mailOk: bool)
    requires width == 0 || height == 0
    requires Visualizer.SendWaveformToEmail(email, width, height, png).Post?
    ensures var body := Visualizer.SendWaveformToEmail(email, width, height, png).body;
      && HasEmailAndImage(body)
      && LocalServer.SendWaveform(body, insertOk, mailOk).effects[0] == Insert(Row(Some(email), "data:,"))
      && ApiServer.SendWaveform(body, insertOk, mailOk).effects[0] == Insert(Row(Some(email), "data:,"))
      && (insertOk ==> LocalServer.SendWaveform(body, insertOk, mailOk).effects[1] == SendMail(email, None))
      && (insertOk ==> ApiServer.SendWaveform(body, insertOk, mailOk).effects[1] == SendMail(email, None))
  {
    Visualizer.CanvasAttachment(width, height, png);
  }

  /**
   * Saving from the page with the email field left empty: server.js refuses
   * it, api/server.js stores the image with a NULL email.
   */
  lemma ClientSaveWithoutEmail(width: nat, height: nat, png: string, insertOk: bool)
    ensures var body := Visualizer.SaveWaveform("", width, height, png).body;
      && LocalServer.SaveWaveform(body, insertOk).response == Response(StatusBadRequest, Message(MsgMissingBoth))
      && ApiServer.SaveWaveform(body, insertOk).effects == [Insert(Row(None, Visualizer.CanvasDataUrl(width, height, png)))]
      && (insertOk ==> ApiServer.SaveWaveform(body, insertOk).response == Response(StatusOk, Message(MsgSaved)))
  {
  }
}
