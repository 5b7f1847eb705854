/** The checks a survey submission runs on the order it rates. */
module Surveys {
  import opened Wrappers
  import opened Users
  import opened OrderPricing

  /** What the survey check reads of an order: its owner, its status and whether a survey exists. */
  datatype RatedOrder = RatedOrder(user: UserId, status: OrderStatus, hasSurvey: bool)

  datatype SurveyError = NotOwnOrder | NotDelivered | AlreadySurveyed

  /**
   * `SurveySerializer.validate_order`: ownership first, then delivery, then a previous survey; the
   * first failing check decides the error, and a valid order comes back unchanged.
   */
  function ValidateOrder(requestUser: Option<UserId>, order: RatedOrder): (r: Result<RatedOrder, SurveyError>)
    ensures r.Ok? <==> requestUser == Some(order.user) && order.status == Delivered && !order.hasSurvey
    ensures r.Ok? ==> r.value == order
    ensures r == Err(NotOwnOrder) <==> requestUser != Some(order.user)
    ensures r == Err(NotDelivered) <==> requestUser == Some(order.user) && order.status != Delivered
    ensures r == Err(AlreadySurveyed) <==> requestUser == Some(order.user) && order.status == Delivered && order.hasSurvey
  {
    if requestUser.None? || order.user != requestUser.value then Err(NotOwnOrder)
    else if order.status != Delivered then Err(NotDelivered)
    else if order.hasSurvey then Err(AlreadySurveyed)
    else Ok(order)
  }
}
