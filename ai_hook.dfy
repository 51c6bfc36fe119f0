/**
 * The AI hook: the gating and usage tracking around an AI answer (with optional speech and
 * video) and a document analysis. The AI, speech and video services are oracle parameters.
 */
module AIHook {
  import opened Wrappers
  import Text
  import Auth
  import opened RevenueCat

  const NoUserError := "User must be logged in"
  const NotConfiguredError := "AI service is not configured. Please check your API keys."
  const ConsultationLimitError := "AI consultation limit reached. Please upgrade your plan."
  const AnalysisLimitError := "Document analysis limit reached. Please upgrade your plan."
  const MockVideoUrl := "https://commondatastorage.googleapis.com/gtv-videos-bucket/sample/BigBuckBunny.mp4"
  const Confidence := 0.85
  const WordsPerMinute := 150

  datatype AIResponse = AIResponse(text: string, audioUrl: Option<string>, videoUrl: Option<string>, confidence: real)

  /** What the video service does: it throws, or it answers with a status and a URL. */
  datatype VideoReply = VideoThrows | VideoAnswer(status: string, videoUrl: string)

  /** Accounts registered locally skip all tracking. */
  predicate IsLocal(user: Auth.User) {
    Text.StartsWith(user.id, Auth.LocalIdPrefix)
  }

  /** Only free, non-local users are checked against the limits before a call. */
  predicate Gated(user: Auth.User) {
    user.plan == Auth.Free && !IsLocal(user)
  }

  /** `text.split(' ').length`. */
  function WordCount(text: string): nat {
    Text.NumberOf(text, ' ') + 1
  }

  /** `Math.ceil(words / 150)`: the minutes of speech the answer is charged for. */
  function EstimatedMinutes(text: string): (m: nat)
    ensures m * WordsPerMinute >= WordCount(text) && (m - 1) * WordsPerMinute < WordCount(text)
    ensures m >= 1
  {
    (WordCount(text) + WordsPerMinute - 1) / WordsPerMinute
  }

  /** The manager after the pre-call check, which stores a default record for a new user. */
  function Checked(subscriptions: map<string, Subscription>, user: Auth.User, now: nat): map<string, Subscription> {
    if Gated(user) then subscriptions[user.id := Current(subscriptions, user.id, now)] else subscriptions
  }

  /** The record after a successful answer: one consultation, then speech minutes, then one video. */
  function AnswerUsage(s: Subscription, text: string, audioTracked: bool, videoTracked: bool): Subscription {
    var s2 := SpokenUsage(s, text, audioTracked);
    if videoTracked then Tracked(s2, VideoConsultations, 1.0) else s2
  }

  /** The record after the consultation and the speech step. */
  function SpokenUsage(s: Subscription, text: string, audioTracked: bool): Subscription {
    var s1 := Tracked(s, AiConsultations, 1.0);
    if audioTracked then Tracked(s1, VoiceMinutes, EstimatedMinutes(text) as real) else s1
  }

  /** Each counter of `AnswerUsage` grows by exactly the number of the matching tracked calls. */
  lemma AnswerUsageCounts(s: Subscription, text: string, audioTracked: bool, videoTracked: bool)
    ensures var r := AnswerUsage(s, text, audioTracked, videoTracked);
      && UsageOf(r.usage, AiConsultations) == UsageOf(s.usage, AiConsultations) + 1.0
      && UsageOf(r.usage, VoiceMinutes)
           == UsageOf(s.usage, VoiceMinutes) + (if audioTracked then EstimatedMinutes(text) as real else 0.0)
      && UsageOf(r.usage, VideoConsultations)
           == UsageOf(s.usage, VideoConsultations) + (if videoTracked then 1.0 else 0.0)
      && UsageOf(r.usage, DocumentAnalysis) == UsageOf(s.usage, DocumentAnalysis)
      && UsageOf(r.usage, DocumentStorage) == UsageOf(s.usage, DocumentStorage)
      && r.tierId == s.tierId && r.userId == s.userId
  {
  }

  /** Whether the video is made and charged for a non-local user. */
  predicate VideoTracked(s: Subscription, includeVideo: bool, video: VideoReply) {
    includeVideo && Allows(s, VideoConsultations) && video.VideoAnswer?
  }

  function AnswerVideo(user: Auth.User, s: Subscription, includeVideo: bool, video: VideoReply): Option<string> {
    if !includeVideo then None
    else if IsLocal(user) then Some(MockVideoUrl)
    else if VideoTracked(s, includeVideo, video) && video.status == "completed" then Some(video.videoUrl)
    else None
  }

  class Hook {
    var isLoading: bool
    var isGeneratingAudio: bool
    var isGeneratingVideo: bool

    constructor()
      ensures !isLoading && !isGeneratingAudio && !isGeneratingVideo
    {
      isLoading := false;
      isGeneratingAudio := false;
      isGeneratingVideo := false;
    }

    /**
     * `generateResponse`. `reply` is the AI service's answer or its error, `audio` the speech
     * URL (none when speech synthesis throws) and `video` the video service's reply.
     */
    method GenerateResponse(manager: SubscriptionManager, user: Option<Auth.User>, configured: bool,
                            includeAudio: bool, includeVideo: bool, reply: Result<string, string>,
                            audio: Option<string>, video: VideoReply, now: nat)
      returns (r: Result<AIResponse, string>)
      modifies this, manager
      ensures user.None? ==> r == Failure(NoUserError) && manager.subscriptions == old(manager.subscriptions)
      ensures user.Some? && !configured ==>
        r == Failure(NotConfiguredError) && manager.subscriptions == old(manager.subscriptions)
      ensures user.None? || !configured ==>
        isLoading == old(isLoading) && isGeneratingAudio == old(isGeneratingAudio)
        && isGeneratingVideo == old(isGeneratingVideo)
      ensures user.Some? && configured ==>
        var u := user.value;
        var c := Current(old(manager.subscriptions), u.id, now);
        if Gated(u) && !Allows(c, AiConsultations) then
          && r == Failure(ConsultationLimitError)
          && manager.subscriptions == old(manager.subscriptions)[u.id := c]
          && isLoading == old(isLoading)
          && isGeneratingAudio == old(isGeneratingAudio) && isGeneratingVideo == old(isGeneratingVideo)
        else if reply.Failure? then
          && r == Failure(reply.error)
          && manager.subscriptions == Checked(old(manager.subscriptions), u, now)
          && !isLoading
          && isGeneratingAudio == old(isGeneratingAudio) && isGeneratingVideo == old(isGeneratingVideo)
        else
          && !isLoading
          && (includeAudio ==> !isGeneratingAudio)
          && (!includeAudio ==> isGeneratingAudio == old(isGeneratingAudio))
          && (includeVideo ==> !isGeneratingVideo)
          && (!includeVideo ==> isGeneratingVideo == old(isGeneratingVideo))
          && r == Success(AIResponse(reply.value, if includeAudio then audio else None,
                                     AnswerVideo(u, c, includeVideo, video), Confidence))
          && manager.subscriptions == (if IsLocal(u) then old(manager.subscriptions) else
               old(manager.subscriptions)[u.id := AnswerUsage(c, reply.value, includeAudio && audio.Some?,
                                                              VideoTracked(c, includeVideo, video))])
    {
      if user.None? {
        return Failure(NoUserError);
      }
      if !configured {
        return Failure(NotConfiguredError);
      }
      var u := user.value;
      if u.plan == Auth.Free && !IsLocal(u) {
        var canUseAI := manager.CheckUsageLimit(u.id, AiConsultations, now);
        if !canUseAI {
          return Failure(ConsultationLimitError);
        }
      }
      isLoading := true;
      if reply.Failure? {
        isLoading := false;
        return Failure(reply.error);
      }
      var response := Answer(manager, u, reply.value, includeAudio, includeVideo, audio, video, now);
      isLoading := false;
      r := Success(response);
    }

    /** The steps after the AI service answered: charge the consultation, then speech, then video. */
    method Answer(manager: SubscriptionManager, u: Auth.User, text: string, includeAudio: bool,
                  includeVideo: bool, audio: Option<string>, video: VideoReply, now: nat)
      returns (response: AIResponse)
      modifies this, manager
      ensures isLoading == old(isLoading)
      ensures includeAudio ==> !isGeneratingAudio
      ensures !includeAudio ==> isGeneratingAudio == old(isGeneratingAudio)
      ensures includeVideo ==> !isGeneratingVideo
      ensures !includeVideo ==> isGeneratingVideo == old(isGeneratingVideo)
      ensures var c := Current(old(manager.subscriptions), u.id, now);
        && response == AIResponse(text, if includeAudio then audio else None,
                                  AnswerVideo(u, c, includeVideo, video), Confidence)
        && manager.subscriptions == (if IsLocal(u) then old(manager.subscriptions) else
             old(manager.subscriptions)[u.id := AnswerUsage(c, text, includeAudio && audio.Some?,
                                                            VideoTracked(c, includeVideo, video))])
    {
      ghost var c := Current(manager.subscriptions, u.id, now);
      var audioUrl := Speech(manager, u, text, includeAudio, audio, now);
      response := AIResponse(text, audioUrl, None, Confidence);
      if includeVideo {
        ghost var s2 := SpokenUsage(c, text, includeAudio && audio.Some?);
        AllowsIndependent(c, AiConsultations, 1.0, VideoConsultations);
        AllowsIndependent(Tracked(c, AiConsultations, 1.0), VoiceMinutes, EstimatedMinutes(text) as real, VideoConsultations);
        assert Allows(s2, VideoConsultations) == Allows(c, VideoConsultations);
        var url := Video(manager, u, video, now);
        response := response.(videoUrl := url);
      }
    }

    /** The consultation is charged, then speech is attached and its minutes charged when it was made. */
    method Speech(manager: SubscriptionManager, u: Auth.User, text: string, includeAudio: bool,
                  audio: Option<string>, now: nat)
      returns (audioUrl: Option<string>)
      modifies this, manager
      ensures isLoading == old(isLoading) && isGeneratingVideo == old(isGeneratingVideo)
      ensures includeAudio ==> !isGeneratingAudio
      ensures !includeAudio ==> isGeneratingAudio == old(isGeneratingAudio)
      ensures audioUrl == if includeAudio then audio else None
      ensures manager.subscriptions == (if IsLocal(u) then old(manager.subscriptions) else
                old(manager.subscriptions)[u.id := SpokenUsage(Current(old(manager.subscriptions), u.id, now), text,
                                                               includeAudio && audio.Some?)])
    {
      if !IsLocal(u) {
        manager.TrackUsage(u.id, AiConsultations, 1.0, now);
      }
      audioUrl := None;
      if includeAudio {
        isGeneratingAudio := true;
        if audio.Some? {
          audioUrl := audio;
          if !IsLocal(u) {
            manager.TrackUsage(u.id, VoiceMinutes, EstimatedMinutes(text) as real, now);
          }
        }
        isGeneratingAudio := false;
      }
    }

    /**
     * The video step: a local user gets the mock video; anyone else is checked against the
     * video cap, and on a reply from the service is charged one video.
     */
    method Video(manager: SubscriptionManager, u: Auth.User, video: VideoReply, now: nat)
      returns (url: Option<string>)
      modifies this, manager
      ensures isLoading == old(isLoading) && isGeneratingAudio == old(isGeneratingAudio) && !isGeneratingVideo
      ensures var c := Current(old(manager.subscriptions), u.id, now);
        && url == AnswerVideo(u, c, true, video)
        && manager.subscriptions == (if IsLocal(u) then old(manager.subscriptions)
             else if VideoTracked(c, true, video) then old(manager.subscriptions)[u.id := Tracked(c, VideoConsultations, 1.0)]
             else old(manager.subscriptions)[u.id := c])
    {
      isGeneratingVideo := true;
      url := None;
      if !IsLocal(u) {
        var canUseVideo := manager.CheckUsageLimit(u.id, VideoConsultations, now);
        if canUseVideo && video.VideoAnswer? {
          if video.status == "completed" {
            url := Some(video.videoUrl);
          }
          manager.TrackUsage(u.id, VideoConsultations, 1.0, now);
        }
      } else {
        url := Some(MockVideoUrl);
      }
      isGeneratingVideo := false;
    }

    /** `analyzeDocument`: the same gating, on the document analysis counter. */
    method AnalyzeDocument(manager: SubscriptionManager, user: Option<Auth.User>, configured: bool,
                           analysis: Result<string, string>, now: nat)
      returns (r: Result<string, string>)
      modifies this, manager
      ensures isGeneratingAudio == old(isGeneratingAudio) && isGeneratingVideo == old(isGeneratingVideo)
      ensures user.None? ==>
        r == Failure(NoUserError) && manager.subscriptions == old(manager.subscriptions) && isLoading == old(isLoading)
      ensures user.Some? && !configured ==>
        r == Failure(NotConfiguredError) && manager.subscriptions == old(manager.subscriptions)
        && isLoading == old(isLoading)
      ensures user.Some? && configured ==>
        var u := user.value;
        var c := Current(old(manager.subscriptions), u.id, now);
        if Gated(u) && !Allows(c, DocumentAnalysis) then
          && r == Failure(AnalysisLimitError)
          && manager.subscriptions == old(manager.subscriptions)[u.id := c]
          && isLoading == old(isLoading)
        else
          && r == analysis
          && !isLoading
          && manager.subscriptions == (if analysis.Failure? || IsLocal(u) then Checked(old(manager.subscriptions), u, now)
               else old(manager.subscriptions)[u.id := Tracked(c, DocumentAnalysis, 1.0)])
    {
      if user.None? {
        return Failure(NoUserError);
      }
      if !configured {
        return Failure(NotConfiguredError);
      }
      var u := user.value;
      if u.plan == Auth.Free && !IsLocal(u) {
        var canAnalyze := manager.CheckUsageLimit(u.id, DocumentAnalysis, now);
        if !canAnalyze {
          return Failure(AnalysisLimitError);
        }
      }
      isLoading := true;
      if analysis.Failure? {
        isLoading := false;
        return analysis;
      }
      if !IsLocal(u) {
        manager.TrackUsage(u.id, DocumentAnalysis, 1.0, now);
      }
      isLoading := false;
      r := analysis;
    }
  }
}
