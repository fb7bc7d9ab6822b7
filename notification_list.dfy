/** `Notifications`, the component that lists the notifications the bus
    relays, newest last, each with a button that deletes it by its index. */
module NotificationList {
  import opened Notifications

  datatype Msg = NewNotificationRequest(request: NotificationRequest) | DeleteNotification(id: nat)

  /** `Vec::remove(i)`: the element at `i` is taken out and the later ones
      move one place to the front. */
  function RemoveAt<T>(s: seq<T>, i: nat): (r: seq<T>)
    requires i < |s|
    ensures |r| == |s| - 1
    ensures forall k | 0 <= k < i :: r[k] == s[k]
    ensures forall k | i <= k < |r| :: r[k] == s[k + 1]
    ensures multiset(r) + multiset{s[i]} == multiset(s)
  {
    assert s == s[..i] + [s[i]] + s[i + 1..];
    s[..i] + s[i + 1..]
  }

  /** The Bulma class that colours a notification of each level. */
  function ColorClass(level: NotificationLevel): (r: string)
    ensures |r| > 3 && r[..3] == "is-"
  {
    match level
    case Success => "is-success"
    case Info => "is-info"
    case Warning => "is-warning"
    case Error => "is-danger"
  }

  /** Each level has its own colour. */
  lemma ColorClassInjective(a: NotificationLevel, b: NotificationLevel)
    ensures ColorClass(a) == ColorClass(b) <==> a == b
  {
    if a != b {
      assert |ColorClass(a)| != |ColorClass(b)| || ColorClass(a)[3] != ColorClass(b)[3];
    }
  }

  class NotificationsComponent {
    var notifications: seq<Notification>

    /** `create`: no notification yet. */
    constructor ()
      ensures notifications == []
    {
      notifications := [];
    }

    /** `change`: there are no properties to change. */
    method Change() returns (render: bool)
      ensures !render
    {
      render := false;
    }

    /** `update`: a new notification goes at the end; a deletion takes out
        the notification at that index, or is refused (no re-render) when the
        index is past the end. */
    method Update(msg: Msg) returns (render: bool)
      modifies this
      ensures msg.NewNotificationRequest? ==>
        render && notifications == old(notifications) + [msg.request.notification]
      ensures msg.DeleteNotification? ==> (render <==> msg.id < |old(notifications)|)
      ensures msg.DeleteNotification? && msg.id < |old(notifications)| ==>
        notifications == RemoveAt(old(notifications), msg.id)
      ensures msg.DeleteNotification? && msg.id >= |old(notifications)| ==>
        notifications == old(notifications)
    {
      match msg
      case NewNotificationRequest(New(notification)) =>
        notifications := notifications + [notification];
        render := true;
      case DeleteNotification(id) =>
        if id < |notifications| {
          notifications := RemoveAt(notifications, id);
          render := true;
        } else {
          render := false;
        }
    }
  }

  /** Posting a notification and then deleting it by the index it was shown
      at leaves the list as it was. */
  lemma PushThenDelete(list: seq<Notification>, n: Notification)
    ensures RemoveAt(list + [n], |list|) == list
  {
  }
}
