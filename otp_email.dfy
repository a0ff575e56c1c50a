/** The one-time-code e-mail: an HTML and a plain-text body built from a
    fixed template around the code and the validity in minutes, with the
    template's outer white space trimmed. */
module OtpEmail {
  import opened Common
  import opened Strings

  /** `expiresInMinutes` is optional; the minutes are whole numbers here. */
  datatype OtpEmailData = OtpEmailData(otpCode: string, email: string, expiresInMinutes: Option<int>)

  /** `data.expiresInMinutes || 10`: an absent value and 0 both fall back to
      ten minutes. */
  function ExpiresIn(data: OtpEmailData): (n: int)
    ensures data.expiresInMinutes.Some? && data.expiresInMinutes.value != 0 ==> n == data.expiresInMinutes.value
    ensures data.expiresInMinutes.None? || data.expiresInMinutes == Some(0) ==> n == 10
    ensures n != 0
  {
    match data.expiresInMinutes
    case Some(m) => if m != 0 then m else 10
    case None => 10
  }

  // The HTML template: the white space that opens the template literal, the
  // text up to the code, the text up to the validity sentence, and the rest.
  const HTML_PADDING_BEFORE: string := "\n"
  const HTML_BEFORE_CODE: string :=
    "<!DOCTYPE html>\n"
    + "<html>\n"
    + "<head>\n"
    + "  <meta charset=\"UTF-8\">\n"
    + "  <meta name=\"viewport\" content=\"width=device-width, initial-scale=1.0\">\n"
    + "  <title>Your OTP Code</title>\n"
    + "</head>\n"
    + "<body style=\"font-family: Arial, sans-serif; line-height: 1.6; color: #333; max-width: 600px; margin: 0 auto; padding: 20px;\">\n"
    + "  <div style=\"background-color: #f4f4f4; padding: 20px; border-radius: 5px;\">\n"
    + "    <h1 style=\"color: #2c3e50; margin-top: 0;\">Your Verification Code</h1>\n"
    + "    \n"
    + "    <p>Hello,</p>\n"
    + "    \n"
    + "    <p>Your verification code for ila26 is:</p>\n"
    + "    \n"
    + "    <div style=\"background-color: #ffffff; border: 2px solid #3498db; border-radius: 5px; padding: 20px; text-align: center; margin: 20px 0;\">\n"
    + "      <h2 style=\"color: #3498db; font-size: 32px; letter-spacing: 5px; margin: 0;\">"
  const HTML_BEFORE_EXPIRY: string :=
    "</h2>\n"
    + "    </div>\n"
    + "    \n"
    + "    <p>This code will "
  const HTML_AFTER_EXPIRY: string :=
    ".</p>\n"
    + "    \n"
    + "    <p>If you didn't request this code, please ignore this email.</p>\n"
    + "    \n"
    + "    <hr style=\"border: none; border-top: 1px solid #eee; margin: 20px 0;\">\n"
    + "    \n"
    + "    <p style=\"color: #7f8c8d; font-size: 12px;\">\n"
    + "      This is an automated message from ila26. Please do not reply to this email.\n"
    + "    </p>\n"
    + "  </div>\n"
    + "</body>\n"
    + "</html>"
  const HTML_PADDING_AFTER: string := "\n  "

  /** The validity sentence of the HTML body. */
  function HtmlExpiry(minutes: int): string {
    "expire in <strong>" + IntToString(minutes) + " minutes</strong>"
  }

  // The plain-text template, cut the same way.
  const TEXT_PADDING_BEFORE: string := "\n"
  const TEXT_BEFORE_CODE: string :=
    "Your Verification Code\n"
    + "\n"
    + "Hello,\n"
    + "\n"
    + "Your verification code for ila26 is: "
  const TEXT_BEFORE_EXPIRY: string :=
    "\n"
    + "\n"
    + "This code will "
  const TEXT_AFTER_EXPIRY: string :=
    ".\n"
    + "\n"
    + "If you didn't request this code, please ignore this email.\n"
    + "\n"
    + "---\n"
    + "This is an automated message from ila26. Please do not reply to this email."
  const TEXT_PADDING_AFTER: string := "\n  "

  /** The validity sentence of the plain-text body. */
  function TextExpiry(minutes: int): string {
    "expire in " + IntToString(minutes) + " minutes"
  }

  /** `generateOtpEmailHtml`: trimming removes the template's outer white
      space and nothing else, whatever white space the code carries; the body
      names the code and the validity. */
  function OtpEmailHtml(data: OtpEmailData): (r: string)
    ensures r == HTML_BEFORE_CODE + data.otpCode + HTML_BEFORE_EXPIRY + HtmlExpiry(ExpiresIn(data)) + HTML_AFTER_EXPIRY
    ensures Includes(r, data.otpCode)
    ensures Includes(r, HtmlExpiry(ExpiresIn(data)))
  {
    HtmlTemplateEnds();
    TrimOfTemplate(HTML_PADDING_BEFORE, HTML_BEFORE_CODE, data.otpCode, HTML_BEFORE_EXPIRY,
                   HtmlExpiry(ExpiresIn(data)), HTML_AFTER_EXPIRY, HTML_PADDING_AFTER);
    TemplateNamesCode(HTML_BEFORE_CODE, data.otpCode, HTML_BEFORE_EXPIRY, HtmlExpiry(ExpiresIn(data)), HTML_AFTER_EXPIRY);
    TemplateNamesExpiry(HTML_BEFORE_CODE, data.otpCode, HTML_BEFORE_EXPIRY, HtmlExpiry(ExpiresIn(data)), HTML_AFTER_EXPIRY);
    Trim(HTML_PADDING_BEFORE + HTML_BEFORE_CODE + data.otpCode + HTML_BEFORE_EXPIRY
         + HtmlExpiry(ExpiresIn(data)) + HTML_AFTER_EXPIRY + HTML_PADDING_AFTER)
  }

  /** `generateOtpEmailText`, with the same guarantees. */
  function OtpEmailText(data: OtpEmailData): (r: string)
    ensures r == TEXT_BEFORE_CODE + data.otpCode + TEXT_BEFORE_EXPIRY + TextExpiry(ExpiresIn(data)) + TEXT_AFTER_EXPIRY
    ensures Includes(r, data.otpCode)
    ensures Includes(r, TextExpiry(ExpiresIn(data)))
  {
    TextTemplateEnds();
    TrimOfTemplate(TEXT_PADDING_BEFORE, TEXT_BEFORE_CODE, data.otpCode, TEXT_BEFORE_EXPIRY,
                   TextExpiry(ExpiresIn(data)), TEXT_AFTER_EXPIRY, TEXT_PADDING_AFTER);
    TemplateNamesCode(TEXT_BEFORE_CODE, data.otpCode, TEXT_BEFORE_EXPIRY, TextExpiry(ExpiresIn(data)), TEXT_AFTER_EXPIRY);
    TemplateNamesExpiry(TEXT_BEFORE_CODE, data.otpCode, TEXT_BEFORE_EXPIRY, TextExpiry(ExpiresIn(data)), TEXT_AFTER_EXPIRY);
    Trim(TEXT_PADDING_BEFORE + TEXT_BEFORE_CODE + data.otpCode + TEXT_BEFORE_EXPIRY
         + TextExpiry(ExpiresIn(data)) + TEXT_AFTER_EXPIRY + TEXT_PADDING_AFTER)
  }

  /** The HTML template opens and closes with text, inside white space. */
  lemma HtmlTemplateEnds()
    ensures forall i :: 0 <= i < |HTML_PADDING_BEFORE| ==> IsJsWhitespace(HTML_PADDING_BEFORE[i])
    ensures forall i :: 0 <= i < |HTML_PADDING_AFTER| ==> IsJsWhitespace(HTML_PADDING_AFTER[i])
    ensures HTML_BEFORE_CODE != [] && !IsJsWhitespace(HTML_BEFORE_CODE[0])
    ensures HTML_AFTER_EXPIRY != [] && !IsJsWhitespace(HTML_AFTER_EXPIRY[|HTML_AFTER_EXPIRY| - 1])
  {
  }

  /** So does the plain-text template. */
  lemma TextTemplateEnds()
    ensures forall i :: 0 <= i < |TEXT_PADDING_BEFORE| ==> IsJsWhitespace(TEXT_PADDING_BEFORE[i])
    ensures forall i :: 0 <= i < |TEXT_PADDING_AFTER| ==> IsJsWhitespace(TEXT_PADDING_AFTER[i])
    ensures TEXT_BEFORE_CODE != [] && !IsJsWhitespace(TEXT_BEFORE_CODE[0])
    ensures TEXT_AFTER_EXPIRY != [] && !IsJsWhitespace(TEXT_AFTER_EXPIRY[|TEXT_AFTER_EXPIRY| - 1])
  {
  }

  /** A template filled in and trimmed: the padding goes, the filled-in
      text stays whole. */
  lemma TrimOfTemplate(pre: string, a: string, code: string, b: string, expiry: string, c: string, post: string)
    requires forall i :: 0 <= i < |pre| ==> IsJsWhitespace(pre[i])
    requires forall i :: 0 <= i < |post| ==> IsJsWhitespace(post[i])
    requires a != [] && !IsJsWhitespace(a[0])
    requires c != [] && !IsJsWhitespace(c[|c| - 1])
    ensures Trim(pre + a + code + b + expiry + c + post) == a + code + b + expiry + c
  {
    var x := a + code + b + expiry + c;
    assert x[0] == a[0];
    assert x[|x| - 1] == c[|c| - 1];
    assert pre + a + code + b + expiry + c + post == pre + x + post;
    TrimPadded(pre, x, post);
  }

  lemma TemplateNamesCode(a: string, code: string, b: string, expiry: string, c: string)
    ensures Includes(a + code + b + expiry + c, code)
  {
    assert a + code + b + expiry + c == a + code + (b + expiry + c);
    IncludesMiddle(a, code, b + expiry + c);
  }

  lemma TemplateNamesExpiry(a: string, code: string, b: string, expiry: string, c: string)
    ensures Includes(a + code + b + expiry + c, expiry)
  {
    IncludesMiddle(a + code + b, expiry, c);
  }

  /** The recipient's address plays no part in either body. */
  lemma AddressNotUsed(data: OtpEmailData, email: string)
    ensures OtpEmailHtml(data.(email := email)) == OtpEmailHtml(data)
    ensures OtpEmailText(data.(email := email)) == OtpEmailText(data)
  {
    assert ExpiresIn(data.(email := email)) == ExpiresIn(data);
  }

  /** Without a validity, or with 0, the mail announces ten minutes (the
      sentence for ten minutes is spelled out by `TenReadsTen`). */
  lemma DefaultValidityIsTenMinutes(data: OtpEmailData)
    requires data.expiresInMinutes.None? || data.expiresInMinutes == Some(0)
    ensures Includes(OtpEmailHtml(data), HtmlExpiry(10))
    ensures Includes(OtpEmailText(data), TextExpiry(10))
  {
    assert ExpiresIn(data) == 10;
  }

  /** The validity sentences for ten minutes. */
  lemma TenReadsTen()
    ensures HtmlExpiry(10) == "expire in <strong>10 minutes</strong>"
    ensures TextExpiry(10) == "expire in 10 minutes"
  {
    assert NatToString(10) == "10";
  }
}
