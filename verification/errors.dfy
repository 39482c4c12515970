/**
 * The app's error enum `qcarError` and its user-facing `errorDescription`.
 * Any error that is not a `qcarError` (a transport or decoding failure from
 * the backend SDK) reaches the view models only through its localized
 * description, so it is carried here as `Underlying(description)`.
 */
module Errors {
  import opened Wrappers

  datatype QError =
    | NotAuthenticated
    | Forbidden(reason: string)
    | InvalidState(reason: string)
    | NotFound(what: string)
    | DecodeFailed
    | Underlying(description: string)

  const NotAuthenticatedText: string := "未登录"
  const DecodeFailedText: string := "数据解析失败"
  const ForbiddenPrefix: string := "无权限："
  const InvalidStatePrefix: string := "状态不合法："
  const NotFoundPrefix: string := "未找到："

  /** `errorDescription`: a fixed text, or a fixed prefix followed by the case's message. */
  function Description(e: QError): (d: string)
    ensures e.NotAuthenticated? ==> d == NotAuthenticatedText
    ensures e.DecodeFailed? ==> d == DecodeFailedText
    ensures e.Forbidden? ==> ForbiddenPrefix <= d && d[|ForbiddenPrefix|..] == e.reason
    ensures e.InvalidState? ==> InvalidStatePrefix <= d && d[|InvalidStatePrefix|..] == e.reason
    ensures e.NotFound? ==> NotFoundPrefix <= d && d[|NotFoundPrefix|..] == e.what
    ensures e.Underlying? ==> d == e.description
  {
    match e
    case NotAuthenticated => NotAuthenticatedText
    case Forbidden(m) => ForbiddenPrefix + m
    case InvalidState(m) => InvalidStatePrefix + m
    case NotFound(m) => NotFoundPrefix + m
    case DecodeFailed => DecodeFailedText
    case Underlying(m) => m
  }

  /**
   * Reads a description back into the app's own error cases: the inverse of
   * `Description` on every case except `Underlying`, whose text is foreign.
   */
  function ParseDescription(d: string): Option<QError> {
    if d == NotAuthenticatedText then Some(NotAuthenticated)
    else if d == DecodeFailedText then Some(DecodeFailed)
    else if ForbiddenPrefix <= d then Some(Forbidden(d[|ForbiddenPrefix|..]))
    else if InvalidStatePrefix <= d then Some(InvalidState(d[|InvalidStatePrefix|..]))
    else if NotFoundPrefix <= d then Some(NotFound(d[|NotFoundPrefix|..]))
    else None
  }

  /** The app's own error texts are unambiguous: each one names its case and message. */
  lemma DescriptionRoundTrip(e: QError)
    requires !e.Underlying?
    ensures ParseDescription(Description(e)) == Some(e)
  {
    var d := Description(e);
    match e
    case NotAuthenticated =>
    case DecodeFailed =>
    case Forbidden(m) =>
      assert d[0] == '无';
    case InvalidState(m) =>
      assert d[0] == '状';
    case NotFound(m) =>
      assert d[0] == '未' && d[1] == '找';
  }

  /** Two distinct app errors never describe alike. */
  lemma DescriptionInjective(e1: QError, e2: QError)
    requires !e1.Underlying? && !e2.Underlying?
    requires Description(e1) == Description(e2)
    ensures e1 == e2
  {
    DescriptionRoundTrip(e1);
    DescriptionRoundTrip(e2);
  }
}
