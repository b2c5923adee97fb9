/** Classification of an incoming WhatsApp message (`processIncomingMessage`): a text
    message passes through; a media message is decrypted and saved under `/uploads/`, or,
    when that fails, degrades to a text placeholder. The decryption and the file write are
    one oracle (`fetched`: both resolved), and `Date.now()` is the parameter `now`. */
module MessageUtils {
  import opened Util

  /** The fields of a venom message that the classification reads; `kind` is `message.type`.
      The two flags stand for the truthiness of `isMedia` and `isMMS`. */
  datatype Message = Message(body: Option<string>, kind: Option<string>, isMedia: bool, isMMS: bool,
                             mimetype: Option<string>, caption: Option<string>)

  /** The resolved `{ messageContent, messageType, mediaUrl }`. */
  datatype Processed = Processed(messageContent: Option<string>, messageType: Option<string>, mediaUrl: Option<string>)

  /** The message types treated as media even without the flags. */
  const MediaTypes: seq<string> := ["image", "video", "audio", "document", "ptt"]

  const Texto := "texto"
  const AudioPlaceholder := "[ÁUDIO]"
  const NotDownloaded := "[MÍDIA NÃO BAIXADA] "

  predicate IsMediaMessage(m: Message)
  {
    m.isMedia || m.isMMS || (m.kind.Some? && m.kind.value in MediaTypes)
  }

  /** A push-to-talk voice note. */
  predicate IsPtt(m: Message)
  {
    m.kind == Some("ptt")
  }

  /** A nullable string inside a template literal; a missing value prints as "undefined". */
  function Render(o: Option<string>): (r: string)
    ensures o.Some? ==> r == o.value
  {
    if o.Some? then o.value else "undefined"
  }

  /** The longest prefix of `s` without `c`. */
  function Before(s: string, c: char): (r: string)
    ensures |r| <= |s| && r == s[..|r|] && c !in r
    ensures |r| < |s| ==> s[|r|] == c
  {
    if s == [] || s[0] == c then [] else [s[0]] + Before(s[1..], c)
  }

  /** `s.split(c)[1]`: the piece between the first and the second `c`; undefined when `s`
      holds no `c`. */
  function SplitSecond(s: string, c: char): (r: Option<string>)
    ensures r.Some? <==> c in s
    ensures r.Some? ==> c !in r.value
  {
    var head := Before(s, c);
    if |head| == |s| then None else Some(Before(s[|head| + 1..], c))
  }

  /** The file extension: `ogg` for a voice note, otherwise the mimetype's subtype, or `bin`
      without a mimetype. */
  function Extension(m: Message): string
  {
    if IsPtt(m) then "ogg"
    else if Truthy(m.mimetype) then Render(SplitSecond(m.mimetype.value, '/'))
    else "bin"
  }

  function Prefix(m: Message): string
  {
    if IsPtt(m) then "audio" else "media"
  }

  /** `${prefix}_${Date.now()}.${ext}` */
  function FileName(m: Message, now: nat): string
  {
    Prefix(m) + "_" + NatToString(now) + "." + Extension(m)
  }

  /** `processIncomingMessage(client, message)`. */
  function ProcessIncomingMessage(m: Message, fetched: bool, now: nat): (r: Processed)
    ensures r.mediaUrl.Some? <==> IsMediaMessage(m) && fetched
    ensures r.mediaUrl.None? ==> r.messageType == Some(Texto)
  {
    if !IsMediaMessage(m) then Processed(m.body, Some(Texto), None)
    else if fetched then
      Processed(Some(if Truthy(m.caption) then m.caption.value else if IsPtt(m) then AudioPlaceholder else ""),
                if IsPtt(m) then Some("audio") else m.kind,
                Some("/uploads/" + FileName(m, now)))
    else Processed(Some(NotDownloaded + Render(m.body)), Some(Texto), None)
  }

  // ---- Properties ----

  lemma {:induction false} BeforeSeparator(a: string, c: char, rest: string)
    requires c !in a
    ensures Before(a + [c] + rest, c) == a
    decreases |a|
  {
    if a != [] {
      assert (a + [c] + rest)[1..] == a[1..] + [c] + rest;
      BeforeSeparator(a[1..], c, rest);
    }
  }

  lemma {:induction false} BeforeAbsent(a: string, c: char)
    requires c !in a
    ensures Before(a, c) == a
    decreases |a|
  {
    if a != [] {
      BeforeAbsent(a[1..], c);
    }
  }

  /** `(a + '/' + b).split('/')[1]` is `b` when neither piece holds a `/`. */
  lemma SplitSecondOf(a: string, b: string, c: char)
    requires c !in a && c !in b
    ensures SplitSecond(a + [c] + b, c) == Some(b)
  {
    var s := a + [c] + b;
    BeforeSeparator(a, c, b);
    assert s[|a| + 1..] == b;
    BeforeAbsent(b, c);
  }

  /** A message that is not media passes through as text, body unchanged, with no file. */
  lemma TextPassesThrough(m: Message, fetched: bool, now: nat)
    requires !IsMediaMessage(m)
    ensures ProcessIncomingMessage(m, fetched, now) == Processed(m.body, Some(Texto), None)
  {
  }

  /** A failed download degrades to a text placeholder that keeps the original body. */
  lemma FailedDownloadBecomesText(m: Message, now: nat)
    requires IsMediaMessage(m)
    ensures var r := ProcessIncomingMessage(m, false, now);
      && r.mediaUrl.None? && r.messageType == Some(Texto)
      && r.messageContent == Some(NotDownloaded + Render(m.body))
  {
  }

  /** A saved media message other than a voice note keeps its type; its content is the
      caption, or empty. */
  lemma MediaKeepsTypeAndCaption(m: Message, now: nat)
    requires IsMediaMessage(m) && !IsPtt(m)
    ensures ProcessIncomingMessage(m, true, now).messageType == m.kind
    ensures ProcessIncomingMessage(m, true, now).messageContent == Some(OrEmpty(m.caption))
    ensures ProcessIncomingMessage(m, true, now).mediaUrl == Some("/uploads/media_" + NatToString(now) + "." + Extension(m))
  {
    UploadsUrl("media", NatToString(now), Extension(m));
    assert "/uploads/" + "media" + "_" == "/uploads/media_";
  }

  /** A saved voice note is an `audio` message in an `.ogg` file; without a caption its
      content is the audio placeholder. */
  lemma VoiceNoteIsAudio(m: Message, now: nat)
    requires IsPtt(m)
    ensures ProcessIncomingMessage(m, true, now).messageType == Some("audio")
    ensures ProcessIncomingMessage(m, true, now).messageContent == Some(OrElse(m.caption, AudioPlaceholder))
    ensures ProcessIncomingMessage(m, true, now).mediaUrl == Some("/uploads/audio_" + NatToString(now) + ".ogg")
  {
    assert "ptt" in MediaTypes;
    UploadsUrl("audio", NatToString(now), "ogg");
    assert "/uploads/" + "audio" + "_" == "/uploads/audio_";
    assert "/uploads/audio_" + NatToString(now) + "." + "ogg" == "/uploads/audio_" + NatToString(now) + ".ogg";
  }

  lemma UploadsUrl(prefix: string, digits: string, ext: string)
    ensures "/uploads/" + (prefix + "_" + digits + "." + ext) == "/uploads/" + prefix + "_" + digits + "." + ext
  {
  }

  /** Whatever the mimetype, the saved file lands directly in the uploads directory: its
      name holds no path separator. */
  lemma SavedFileStaysInUploads(m: Message, now: nat)
    requires IsMediaMessage(m)
    ensures var r := ProcessIncomingMessage(m, true, now);
      && r.mediaUrl.Some?
      && exists name :: r.mediaUrl.value == "/uploads/" + name && '/' !in name
  {
    var name := FileName(m, now);
    var digits := NatToString(now);
    assert '/' !in digits by {
      forall i | 0 <= i < |digits| ensures digits[i] != '/' {
        assert IsDigit(digits[i]);
      }
    }
    var ext := Extension(m);
    assert '/' !in ext;
    assert '/' !in Prefix(m);
    assert name == Prefix(m) + "_" + digits + "." + ext;
    forall i | 0 <= i < |name| ensures name[i] != '/' {
      if i < |Prefix(m)| + 1 + |digits| + 1 {
        if i < |Prefix(m)| {
          assert name[i] == Prefix(m)[i];
        } else if i == |Prefix(m)| {
        } else if i < |Prefix(m)| + 1 + |digits| {
          assert name[i] == digits[i - |Prefix(m)| - 1];
        }
      } else {
        assert name[i] == ext[i - |Prefix(m)| - 2 - |digits|];
      }
    }
  }

  /** Two media files saved for the same message at different instants get different names,
      so the later does not overwrite the earlier. */
  lemma DistinctInstantsDistinctFiles(m: Message, now1: nat, now2: nat)
    requires now1 != now2
    ensures FileName(m, now1) != FileName(m, now2)
  {
    var p, e := Prefix(m) + "_", "." + Extension(m);
    var d1, d2 := NatToString(now1), NatToString(now2);
    assert FileName(m, now1) == p + d1 + e;
    assert FileName(m, now2) == p + d2 + e;
    if p + d1 + e == p + d2 + e {
      MiddleCancel(p, d1, d2, e);
      NatToStringInjective(now1, now2);
    }
  }

  lemma MiddleCancel(p: string, x: string, y: string, e: string)
    requires p + x + e == p + y + e
    ensures x == y
  {
    assert |x| == |y|;
    assert x == (p + x + e)[|p|..|p| + |x|];
    assert y == (p + y + e)[|p|..|p| + |y|];
  }

  // ---- The unit scenarios ----

  lemma Thousand()
    ensures NatToString(1000) == "1000"
  {
    assert NatToString(1) == "1";
    assert NatToString(10) == "10";
    assert NatToString(100) == "100";
  }

  /** An image with a caption and mimetype `image/png`, saved at instant 1000. */
  lemma ImageScenario()
    ensures ProcessIncomingMessage(Message(Some(""), Some("image"), true, false, Some("image/png"), Some("cap")), true, 1000)
         == Processed(Some("cap"), Some("image"), Some("/uploads/media_1000.png"))
  {
    var m := Message(Some(""), Some("image"), true, false, Some("image/png"), Some("cap"));
    assert IsMediaMessage(m) && !IsPtt(m);
    MediaKeepsTypeAndCaption(m, 1000);
    Thousand();
    PngExtension(m);
    ImageUrl();
  }

  lemma PngExtension(m: Message)
    requires m.mimetype == Some("image/png") && !IsPtt(m)
    ensures Extension(m) == "png"
  {
    assert "image" + "/" + "png" == "image/png";
    SplitSecondOf("image", "png", '/');
  }

  lemma ImageUrl()
    ensures "/uploads/media_" + "1000" + "." + "png" == "/uploads/media_1000.png"
  {
  }

  /** A voice note without a caption, saved at instant 1000. */
  lemma VoiceNoteScenario()
    ensures ProcessIncomingMessage(Message(Some(""), Some("ptt"), true, false, Some("audio/ogg"), None), true, 1000)
         == Processed(Some(AudioPlaceholder), Some("audio"), Some("/uploads/audio_1000.ogg"))
  {
    var m := Message(Some(""), Some("ptt"), true, false, Some("audio/ogg"), None);
    VoiceNoteIsAudio(m, 1000);
    Thousand();
    VoiceUrl();
  }

  lemma VoiceUrl()
    ensures "/uploads/audio_" + "1000" + ".ogg" == "/uploads/audio_1000.ogg"
  {
  }

  /** An image whose decryption rejects. */
  lemma DecryptFailureScenario(now: nat)
    ensures ProcessIncomingMessage(Message(Some("hello"), Some("image"), true, false, Some("image/png"), None), false, now)
         == Processed(Some("[MÍDIA NÃO BAIXADA] hello"), Some(Texto), None)
  {
    assert NotDownloaded + "hello" == "[MÍDIA NÃO BAIXADA] hello";
  }
}
