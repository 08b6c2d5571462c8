/**
 * The JSON body of one push sent to the Pushbullet push-creation endpoint:
 * a flat dictionary from key to text, filled in key by key.
 */
module Pushbullet {

  /** The optional `url` argument of the sender (`url=None`). */
  datatype Option<T> = None | Some(value: T)

  /** The keys a push body can hold. */
  datatype Key = Type | Title | Body | Url | Email | ChannelTag

  /** The JSON name of each key. */
  function KeyName(k: Key): string {
    match k
    case Type => "type"
    case Title => "title"
    case Body => "body"
    case Url => "url"
    case Email => "email"
    case ChannelTag => "channel_tag"
  }

  /** The six keys are six different JSON names, so filling one never
      overwrites another. */
  lemma KeyNamesDistinct(j: Key, k: Key)
    ensures KeyName(j) == KeyName(k) ==> j == k
  {
    if j != k {
      assert KeyName(j)[1] != KeyName(k)[1];
    }
  }

  /** A push body: `{type, title, body, url?, email | channel_tag}`. */
  type Push = map<Key, string>

  /** Python truthiness of the optional url: absent (None) and "" are both false. */
  predicate UrlGiven(url: Option<string>) {
    url.Some? && url.value != ""
  }

  /** Routing of a destination: a text holding an "@" is a guardian's address,
      any other text is a channel tag. */
  predicate IsEmailAddress(destination: string) {
    '@' in destination
  }

  /** The body built for one notification: a "link" push carrying the url
      when a url is given, a "note" without one otherwise; addressed by
      `email` to an address and by `channel_tag` to a channel. */
  function Payload(destination: string, title: string, body: string, url: Option<string>): (data: Push)
    ensures data.Keys == {Type, Title, Body}
                         + (if UrlGiven(url) then {Url} else {})
                         + (if IsEmailAddress(destination) then {Email} else {ChannelTag})
    ensures data[Type] == "link" || data[Type] == "note"
    ensures data[Type] == "link" <==> Url in data
    ensures Url in data <==> UrlGiven(url)
    ensures Url in data ==> data[Url] == url.value
    ensures data[Title] == title && data[Body] == body
    ensures Email in data <==> IsEmailAddress(destination)
    ensures ChannelTag in data <==> !IsEmailAddress(destination)
    ensures Email in data ==> data[Email] == destination
    ensures ChannelTag in data ==> data[ChannelTag] == destination
  {
    var data := map[Type := if UrlGiven(url) then "link" else "note", Title := title, Body := body];
    var data := if UrlGiven(url) then data[Url := url.value] else data;
    if IsEmailAddress(destination) then data[Email := destination] else data[ChannelTag := destination]
  }
}
