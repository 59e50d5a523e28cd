/** The student's sign-in form, with the QR code that lets classmates open the same page. */
module Login {
  import opened Types
  import Text

  const NameMissing := "Prosím zadej své jméno."
  const EmailMissing := "Prosím zadej e-mailovou adresu."
  const ClassMissing := "Prosím zadej třídu."
  const Copied := "Odkaz zkopírován!"
  const CopyFailed := "Chyba kopírování"
  const CopyNoticeMs := 2000
  const QrService := "https://api.qrserver.com/v1/create-qr-code/?size=400x400&margin=10&data="

  /** `handleSubmit`'s checks, in order: the first failing one names the error. */
  function SubmitCheck(name: string, email: string, class_: string): Option<string> {
    if Text.IsBlank(name) then Some(NameMissing)
    else if Text.IsBlank(email) then Some(EmailMissing)
    else if Text.IsBlank(class_) then Some(ClassMissing)
    else None
  }

  /** A field holding some character that is not white space. */
  ghost predicate Filled(f: string) {
    !Text.AllSpace(f)
  }

  /** The sign-in is refused with exactly the first unfilled field's message, and
      accepted exactly when name, e-mail and class are all filled. */
  lemma SubmitCheckFirstFailure(name: string, email: string, class_: string)
    ensures SubmitCheck(name, email, class_).None? <==> Filled(name) && Filled(email) && Filled(class_)
    ensures SubmitCheck(name, email, class_) == Some(NameMissing) <==> !Filled(name)
    ensures SubmitCheck(name, email, class_) == Some(EmailMissing) <==> Filled(name) && !Filled(email)
    ensures SubmitCheck(name, email, class_) == Some(ClassMissing) <==> Filled(name) && Filled(email) && !Filled(class_)
  {
    Text.BlankIffAllSpace(name);
    Text.BlankIffAllSpace(email);
    Text.BlankIffAllSpace(class_);
  }

  /** `isBlobUrl`: the address is a local object URL, which a QR code cannot share. */
  function IsBlobUrl(url: string): (r: bool)
    ensures r <==> |url| >= 5 && url[..5] == "blob:"
  {
    Text.StartsWith(url, "blob:")
  }

  /** `qrCodeImage`: the QR service address for the URL, or nothing when there is no URL.
      `encode` stands for `encodeURIComponent`. */
  function QrCodeImage(url: string, encode: string -> string): (r: string)
    ensures r == "" <==> url == ""
    ensures url != "" ==> Text.StartsWith(r, QrService) && r[|QrService|..] == encode(url)
  {
    if url != "" then QrService + encode(url) else ""
  }

  /** A sign-in handed to the application: the values as typed, not trimmed. */
  datatype Identity = Identity(name: string, email: string, class_: string)

  class LoginScreen {
    var name: string
    var email: string
    var studentClass: string
    var error: string
    var showQR: bool
    var qrUrlInput: string
    var copySuccess: string
    var logins: seq<Identity>      // calls of `onLogin`

    /** Mounting: the QR field takes the page's address. */
    constructor (pageUrl: string)
      ensures name == "" && email == "" && studentClass == "" && error == ""
      ensures !showQR && qrUrlInput == pageUrl && copySuccess == "" && logins == []
    {
      name, email, studentClass, error := "", "", "", "";
      showQR, qrUrlInput, copySuccess := false, pageUrl, "";
      logins := [];
    }

    /** `handleSubmit`: the first failed check is reported, or the untrimmed values are
        handed on. */
    method HandleSubmit()
      modifies this`error, this`logins
      ensures SubmitCheck(name, email, studentClass).Some? ==>
        error == SubmitCheck(name, email, studentClass).value && logins == old(logins)
      ensures SubmitCheck(name, email, studentClass).None? ==>
        error == old(error) && logins == old(logins) + [Identity(name, email, studentClass)]
    {
      var check := SubmitCheck(name, email, studentClass);
      if check.Some? {
        error := check.value;
        return;
      }
      logins := logins + [Identity(name, email, studentClass)];
    }

    /** Editing the name also clears the error. */
    method SetName(v: string)
      modifies this`name, this`error
      ensures name == v && error == ""
    {
      name, error := v, "";
    }

    /** Editing the e-mail also clears the error. */
    method SetEmail(v: string)
      modifies this`email, this`error
      ensures email == v && error == ""
    {
      email, error := v, "";
    }

    /** Editing the class also clears the error. */
    method SetClass(v: string)
      modifies this`studentClass, this`error
      ensures studentClass == v && error == ""
    {
      studentClass, error := v, "";
    }

    /** Opening or closing the QR panel; the field is reset to the page's address. */
    method ToggleQR(pageUrl: string)
      modifies this`showQR, this`qrUrlInput
      ensures showQR == !old(showQR) && qrUrlInput == pageUrl
    {
      showQR := !showQR;
      qrUrlInput := pageUrl;
    }

    method SetQrUrl(v: string)
      modifies this`qrUrlInput
      ensures qrUrlInput == v
    {
      qrUrlInput := v;
    }

    /** `copyToClipboard`, given whether the clipboard accepted the text. A success notice
        is cleared again after 2000 ms by `CopyNoticeExpired`. */
    method CopyToClipboard(copied: bool)
      modifies this`copySuccess
      ensures copySuccess == if copied then Copied else CopyFailed
    {
      copySuccess := if copied then Copied else CopyFailed;
    }

    method CopyNoticeExpired()
      modifies this`copySuccess
      ensures copySuccess == ""
    {
      copySuccess := "";
    }
  }
}
