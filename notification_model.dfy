/** In-app notifications. The model's own schema file is not part of this model; its fields are
    the ones the fan-out writes. */
module NotificationModel {
  import opened Common

  datatype Notification = Notification(
    id: Id,
    userId: Id,
    message: string,
    seen: bool,
    createdAt: Time)

  function NotificationKey(n: Notification): Id { n.id }

  function NotificationCreatedAt(n: Notification): int { n.createdAt }
}
