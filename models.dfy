/** The JSON request body of the send endpoints (apiv0/models.go). */
module Models {

  /** One link button as the caller describes it (its `label` is `caption` here,
      `label` being a Dafny keyword); empty strings and a zero size
      mean "not given". */
  datatype Button = Button(
    caption: string,
    link: string,
    textColor: string,
    backgroundColor: string,
    textAlign: string,
    alertText: string,
    horizontalSize: int)

  type ButtonRow = seq<Button>

  datatype Message = Message(to: string, body: string, buttons: seq<ButtonRow>)
}
